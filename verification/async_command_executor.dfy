/**
  The asynchronous command executor as pure transitions on `State`.

  Each public or callback entry point of the executor is one function from the
  state before the call to the state after it; everything the call does to the
  outside world (handing a mapping over, detaining, releasing, cancelling,
  invoking a callback) is appended to the state's log. The single-command
  executor is abstracted: it builds a fresh command, runs the pre-execution hook
  on it, and the command's later completion is a separate transition chosen by
  the environment (`CommandExecutedCallback`).
*/
module AsyncCommandExecutor {
  import opened Wrappers
  import opened ExecutorState

  /* ---------------------------------------------------------------------- */
  /* What one drain step promises                                           */
  /* ---------------------------------------------------------------------- */

  /** The drain step from `s` skipped the null mappings at the head of the queue,
      dequeued the first non-null one, handed it over with the run's payload, and
      the fresh command built for it became current and was detained. */
  ghost predicate StartedFirst(s: State, r: State)
  {
    && !s.aborted
    && Compact(s.queue) != []
    && |r.queue| < |s.queue|
    && r.queue == s.queue[|s.queue| - |r.queue|..]
    && var skipped := |s.queue| - |r.queue| - 1;
       var m := Compact(s.queue)[0];
       var c := Cmd(s.nextSerial, m.commandType);
       && (forall k :: 0 <= k < skipped ==> s.queue[k].None?)
       && s.queue[skipped] == Some(m)
       && Compact(r.queue) == Compact(s.queue)[1..]
       && r == s.(queue := r.queue, current := Some(c), detained := s.detained + multiset{c},
                  bindingPresent := true, nextSerial := s.nextSerial + 1,
                  log := s.log + [Execute(m, s.payload), Detain(c)])
  }

  /** The drain step from `s` started nothing: the queue is left empty and exactly
      one terminal callback is invoked (when registered) -- "all aborted" if the
      executor is aborted, otherwise "all executed", and then only because no
      non-null mapping was left. */
  ghost predicate Ended(s: State, r: State)
  {
    && r == s.(queue := [], log := r.log)
    && if s.aborted then r.log == s.log + AbortedNotice(s.abortedCallback)
       else Compact(s.queue) == [] && r.log == s.log + ExecutedNotice(s.executedCallback)
  }

  /** A drain step starts a command exactly when the executor is not aborted and a
      non-null mapping is still queued; otherwise it ends the run. */
  ghost predicate DrainOutcome(s: State, r: State)
  {
    if !s.aborted && Compact(s.queue) != [] then StartedFirst(s, r) else Ended(s, r)
  }

  /* ---------------------------------------------------------------------- */
  /* Construction and the public entry points                               */
  /* ---------------------------------------------------------------------- */

  /** A new executor: not aborted, nothing queued, current or detained, no callbacks. */
  function NewExecutor(handleResult: Option<HandlerId>): (s: State)
    ensures !s.aborted && s.current == None && s.detained == multiset{}
    ensures s.queue == [] && s.total == 0 && !s.bindingPresent && s.log == []
    ensures s.abortedCallback == None && s.executedCallback == None && s.progressCallback == None
    ensures s.resultHandler == handleResult
  {
    State([], 0, None, false, None, multiset{}, false, None, None, None, handleResult, 0, [])
  }

  /** Raises the aborted flag; cancels the current command only when asked to and
      when there is one. Nothing else changes. */
  function Abort(s: State, abortCurrentCommand: bool): (r: State)
    ensures r.aborted
    ensures r == s.(aborted := true, log := r.log)
    ensures IsPrefix(s.log, r.log)
    ensures NewEvents(s, r) != [] <==> abortCurrentCommand && s.current.Some?
    ensures NewEvents(s, r) != [] ==> NewEvents(s, r) == [CancelCurrent(s.current.value)]
  {
    var flagged := s.(aborted := true);
    if abortCurrentCommand && s.current.Some? then
      flagged.(log := s.log + [CancelCurrent(s.current.value)])
    else
      flagged
  }

  /** Starts a run: the queue becomes the given mappings and the total their count,
      the aborted flag is left as it is, and one drain step follows. */
  function ExecuteAsyncCommands(s: State, mappings: seq<Option<Mapping>>, payload: Payload): (r: State)
    ensures r.total == |mappings| && r.payload == Some(payload) && r.aborted == s.aborted
    ensures IsSuffix(r.queue, mappings)
    ensures DrainOutcome(s.(queue := mappings, total := |mappings|, payload := Some(payload),
                            bindingPresent := false), r)
    ensures s.aborted ==> r.queue == [] && r.log == s.log + AbortedNotice(s.abortedCallback)
    ensures !s.aborted && Compact(mappings) == [] ==>
              r.log == s.log + ExecutedNotice(s.executedCallback)
  {
    var loaded := s.(queue := mappings, total := |mappings|, payload := Some(payload));
    ExecuteNextCommand(loaded)
  }

  /** Replaces the "all aborted" callback. */
  function SetCommandsAbortedCallback(s: State, callback: Option<CallbackId>): (r: State)
    ensures r.abortedCallback == callback
    ensures r.(abortedCallback := s.abortedCallback) == s
  {
    s.(abortedCallback := callback)
  }

  /** Replaces the "all executed" callback. */
  function SetCommandsExecutedCallback(s: State, callback: Option<CallbackId>): (r: State)
    ensures r.executedCallback == callback
    ensures r.(executedCallback := s.executedCallback) == s
  {
    s.(executedCallback := callback)
  }

  /** Replaces the per-step progress callback. */
  function SetCommandExecutedCallback(s: State, callback: Option<CallbackId>): (r: State)
    ensures r.progressCallback == callback
    ensures r.(progressCallback := s.progressCallback) == s
  {
    s.(progressCallback := callback)
  }

  /* ---------------------------------------------------------------------- */
  /* Callbacks and the drain step                                           */
  /* ---------------------------------------------------------------------- */

  /** The state a completion hands to its drain step: the command released, the
      progress reported, and the flag raised when the command asked to stop. */
  function Reported(s: State, cmd: Cmd, stop: bool): State
  {
    s.(detained := s.detained - multiset{cmd}, aborted := s.aborted || stop,
       bindingPresent := false,
       log := s.log + [Release(cmd)]
              + ProgressNotice(s.progressCallback, cmd.commandType, s.total - |s.queue|, s.total))
  }

  /** A command reports completion: it is released, progress (steps dequeued so far
      out of the total) is reported, `stop` raises the aborted flag without
      cancelling anything, and a drain step follows. */
  function CommandExecutedCallback(s: State, cmd: Cmd, stop: bool): (r: State)
    ensures DrainOutcome(Reported(s, cmd, stop), r)
  {
    var released := s.(detained := s.detained - multiset{cmd}, log := s.log + [Release(cmd)]);
    var current := s.total - |s.queue|;
    var reported := released.(log := released.log
                                      + ProgressNotice(s.progressCallback, cmd.commandType, current, s.total));
    var halted := if stop then Abort(reported, false) else reported;
    ExecuteNextCommand(halted)
  }

  /** A completion during which the progress callback itself calls
      `Abort(abortCurrentCommand)` on the executor. That call comes after the
      release and the report, and before the `stop` check and the drain step, while
      the finishing command is still current. So nothing more is started, "all
      aborted" is invoked, and a cancellation, when asked for, goes to the command
      that has just finished. */
  function CommandExecutedCallbackWithObserverAbort(s: State, cmd: Cmd, stop: bool,
                                                    abortCurrentCommand: bool): (r: State)
    requires s.progressCallback.Some?
    ensures r.aborted && r.queue == [] && r.current == s.current
    ensures r == s.(queue := [], aborted := true, detained := s.detained - multiset{cmd},
                    bindingPresent := false, log := r.log)
    ensures IsPrefix(s.log, r.log)
    ensures NewEvents(s, r)
         == [Release(cmd), Progress(s.progressCallback.value, cmd.commandType, s.total - |s.queue|, s.total)]
            + (if abortCurrentCommand && s.current.Some? then [CancelCurrent(s.current.value)] else [])
            + AbortedNotice(s.abortedCallback)
  {
    var released := s.(detained := s.detained - multiset{cmd}, log := s.log + [Release(cmd)]);
    var current := s.total - |s.queue|;
    var reported := released.(log := released.log
                                      + ProgressNotice(s.progressCallback, cmd.commandType, current, s.total));
    var observed := Abort(reported, abortCurrentCommand);
    var halted := if stop then Abort(observed, false) else observed;
    var r := ExecuteNextCommand(halted);
    ObserverAbortHalts(s, cmd, abortCurrentCommand, halted, r);
    r
  }

  lemma ObserverAbortHalts(s: State, cmd: Cmd, abortCurrentCommand: bool, halted: State, r: State)
    requires s.progressCallback.Some?
    requires halted == s.(aborted := true, detained := s.detained - multiset{cmd}, log := halted.log)
    requires halted.log
          == s.log + [Release(cmd), Progress(s.progressCallback.value, cmd.commandType, s.total - |s.queue|, s.total)]
             + (if abortCurrentCommand && s.current.Some? then [CancelCurrent(s.current.value)] else [])
    requires r == ExecuteNextCommand(halted)
    ensures r.aborted && r.queue == [] && r.current == s.current
    ensures r == s.(queue := [], aborted := true, detained := s.detained - multiset{cmd},
                    bindingPresent := false, log := r.log)
    ensures IsPrefix(s.log, r.log)
    ensures NewEvents(s, r)
         == [Release(cmd), Progress(s.progressCallback.value, cmd.commandType, s.total - |s.queue|, s.total)]
            + (if abortCurrentCommand && s.current.Some? then [CancelCurrent(s.current.value)] else [])
            + AbortedNotice(s.abortedCallback)
  {
    AbortedDrain(halted);
    LogTail(s.log,
            [Release(cmd), Progress(s.progressCallback.value, cmd.commandType, s.total - |s.queue|, s.total)],
            if abortCurrentCommand && s.current.Some? then [CancelCurrent(s.current.value)] else [],
            AbortedNotice(s.abortedCallback));
  }

  /** On an aborted executor a drain step only clears the queue, removes the
      binding and invokes "all aborted". */
  lemma AbortedDrain(s: State)
    requires s.aborted
    ensures ExecuteNextCommand(s)
         == s.(queue := [], bindingPresent := false, log := s.log + AbortedNotice(s.abortedCallback))
  {
  }

  lemma LogTail(log: seq<Event>, a: seq<Event>, b: seq<Event>, c: seq<Event>)
    ensures |log| <= |log + a + b + c|
    ensures (log + a + b + c)[|log|..] == a + b + c
  {
    assert log + a + b + c == log + (a + b + c);
  }

  /** One drain step: the named completion binding is removed, then the queue is
      drained as `DrainOutcome` describes. */
  function ExecuteNextCommand(s: State): (r: State)
    ensures DrainOutcome(s.(bindingPresent := false), r)
    ensures r.bindingPresent <==> !s.aborted && Compact(s.queue) != []
  {
    DrainLoop(s.(bindingPresent := false))
  }

  /** The dequeue loop of a drain step: skip null mappings, start the first
      non-null one and return, or finish when aborted or out of mappings. */
  function DrainLoop(s: State): (r: State)
    ensures DrainOutcome(s, r)
    decreases |s.queue|
  {
    if !s.aborted && |s.queue| > 0 then
      var rest := s.(queue := s.queue[1..]);
      match s.queue[0]
      case Some(m) =>
        var r := ExecuteCommand(rest.(bindingPresent := true), m);
        HeadMappingStarts(s, m, r);
        r
      case None =>
        var r := DrainLoop(rest);
        NullMappingSkipped(s, r);
        r
    else
      FinishEnds(s);
      Finish(s)
  }

  lemma HeadMappingStarts(s: State, m: Mapping, r: State)
    requires !s.aborted && |s.queue| > 0 && s.queue[0] == Some(m)
    requires r == ExecuteCommand(s.(queue := s.queue[1..], bindingPresent := true), m)
    ensures StartedFirst(s, r)
  {
    assert s.queue == [s.queue[0]] + s.queue[1..];
    assert Compact(s.queue) == [m] + Compact(s.queue[1..]);
  }

  lemma NullMappingSkipped(s: State, r: State)
    requires !s.aborted && |s.queue| > 0 && s.queue[0] == None
    requires DrainOutcome(s.(queue := s.queue[1..]), r)
    ensures DrainOutcome(s, r)
  {
    var rest := s.(queue := s.queue[1..]);
    assert Compact(s.queue) == Compact(rest.queue);
    if Compact(s.queue) != [] {
      assert StartedFirst(rest, r);
      var skipped := |s.queue| - |r.queue| - 1;
      assert r.queue == rest.queue[|rest.queue| - |r.queue|..];
      assert r.queue == s.queue[|s.queue| - |r.queue|..];
      forall k | 0 <= k < skipped
        ensures s.queue[k].None?
      {
        if k > 0 {
          assert s.queue[k] == rest.queue[k - 1];
        }
      }
      assert s.queue[skipped] == rest.queue[skipped - 1];
    }
  }

  lemma FinishEnds(s: State)
    requires s.aborted || |s.queue| == 0
    ensures Ended(s, Finish(s))
  {
  }

  /** What a drain step does once the dequeue loop has stopped. */
  function Finish(s: State): State
  {
    if s.aborted then
      s.(queue := [], log := s.log + AbortedNotice(s.abortedCallback))
    else if |s.queue| == 0 then
      s.(log := s.log + ExecutedNotice(s.executedCallback))
    else
      s
  }

  /** The single-command executor: hands the mapping over with the run's payload,
      builds a fresh command of the mapping's type and runs the pre-execution hook
      on it. The command's completion is a later, separate transition. */
  function ExecuteCommand(s: State, m: Mapping): (r: State)
    ensures r.current == Some(Cmd(s.nextSerial, m.commandType))
    ensures r.nextSerial == s.nextSerial + 1
    ensures r.log == s.log + [Execute(m, s.payload), Detain(r.current.value)]
    ensures r == s.(current := r.current, detained := r.detained, nextSerial := r.nextSerial, log := r.log)
    ensures r.detained == s.detained + multiset{r.current.value}
  {
    var handedOver := s.(log := s.log + [Execute(m, s.payload)], nextSerial := s.nextSerial + 1);
    PreprocessAsyncCommandExecuting(handedOver, Cmd(s.nextSerial, m.commandType), m)
  }

  /** The pre-execution hook: the new command becomes current and is detained once. */
  function PreprocessAsyncCommandExecuting(s: State, cmd: Cmd, m: Mapping): (r: State)
    ensures r.current == Some(cmd)
    ensures r.detained == s.detained + multiset{cmd}
    ensures r.log == s.log + [Detain(cmd)]
    ensures r == s.(current := r.current, detained := r.detained, log := r.log)
  {
    s.(current := Some(cmd), detained := s.detained + multiset{cmd}, log := s.log + [Detain(cmd)])
  }

  /** The result relay: forwards (result, command, mapping) unchanged to the
      constructor's handler when there is one, and changes nothing else. */
  function HandleCommandExecuteResult(s: State, result: Option<ResultValue>, cmd: Cmd, m: Mapping): (r: State)
    ensures r.(log := s.log) == s
    ensures IsPrefix(s.log, r.log)
    ensures NewEvents(s, r) != [] <==> s.resultHandler.Some?
    ensures NewEvents(s, r) != [] ==> NewEvents(s, r) == [ResultRelayed(s.resultHandler.value, result, cmd, m)]
  {
    match s.resultHandler
    case Some(h) => s.(log := s.log + [ResultRelayed(h, result, cmd, m)])
    case None => s
  }
}
