/**
  The executor driven by its environment, one input at a time. An `Input` is
  anything the outside world can do to an executor: start a run, have a command
  report completion, abort, set a callback, or relay a command's result. `Step`
  applies one input and `Run` a sequence of them. The lemmas here describe a
  single step through the log views; the trace lemmas build on them.
*/
module ExecutorSteps {
  import opened Wrappers
  import opened ExecutorState
  import opened AsyncCommandExecutor

  datatype Input =
    | Start(mappings: seq<Option<Mapping>>, payload: Payload)
      /** `cmd` calls the completion callback it was injected with */
    | Completion(cmd: Cmd, stop: bool)
    | AbortRequest(abortCurrentCommand: bool)
    | SetAborted(abortedCallback: Option<CallbackId>)
    | SetExecuted(executedCallback: Option<CallbackId>)
    | SetProgress(progressCallback: Option<CallbackId>)
    | Relay(result: Option<ResultValue>, cmd: Cmd, mapping: Mapping)

  /** The inputs that can raise the aborted flag. */
  predicate RaisesAbort(i: Input)
  {
    i.AbortRequest? || (i.Completion? && i.stop)
  }

  predicate IsSetter(i: Input)
  {
    i.SetAborted? || i.SetExecuted? || i.SetProgress?
  }

  /** One input applied to an executor. */
  function Step(s: State, i: Input): (r: State)
    ensures IsPrefix(s.log, r.log)
    ensures r.aborted <==> s.aborted || RaisesAbort(i)
  {
    match i
    case Start(ms, p) =>
      var r := ExecuteAsyncCommands(s, ms, p);
      DrainFacts(s.(queue := ms, total := |ms|, payload := Some(p), bindingPresent := false), r);
      r
    case Completion(c, stop) =>
      CompletionFacts(s, c, stop);
      CommandExecutedCallback(s, c, stop)
    case AbortRequest(ac) => Abort(s, ac)
    case SetAborted(cb) => SetCommandsAbortedCallback(s, cb)
    case SetExecuted(cb) => SetCommandsExecutedCallback(s, cb)
    case SetProgress(cb) => SetCommandExecutedCallback(s, cb)
    case Relay(res, c, m) => HandleCommandExecuteResult(s, res, c, m)
  }

  /** A sequence of inputs applied in order. */
  function Run(s: State, ins: seq<Input>): (r: State)
    ensures IsPrefix(s.log, r.log)
    decreases |ins|
  {
    if ins == [] then s
    else
      var t := Step(s, ins[0]);
      var r := Run(t, ins[1..]);
      PrefixTransitive(s.log, t.log, r.log);
      r
  }

  /* ---------------------------------------------------------------------- */
  /* Facts about one drain step                                             */
  /* ---------------------------------------------------------------------- */

  /** What a drain step appends, seen through the log views. */
  lemma DrainFacts(s: State, r: State)
    requires DrainOutcome(s, r)
    ensures IsPrefix(s.log, r.log)
    ensures r.aborted == s.aborted && r.total == s.total && r.payload == s.payload
    ensures IsSuffix(r.queue, s.queue)
    ensures NoneCancelled(NewEvents(s, r)) && AllWithPayload(NewEvents(s, r), s.payload)
    ensures r.bindingPresent == (s.bindingPresent || !NoneStarted(NewEvents(s, r)))
    ensures IsPrefix(ExecutedMappings(NewEvents(s, r)) + Compact(r.queue), Compact(s.queue))
    ensures !s.aborted ==> ExecutedMappings(NewEvents(s, r)) + Compact(r.queue) == Compact(s.queue)
    ensures s.aborted ==> NoneStarted(NewEvents(s, r)) && NeverAllExecuted(NewEvents(s, r))
    ensures NoneReported(NewEvents(s, r))
    ensures DetainedBag(r.log) == DetainedBag(s.log) + (r.detained - s.detained)
    ensures ReleasedBag(r.log) == ReleasedBag(s.log)
  {
    if StartedFirst(s, r) {
      StartedFacts(s, r);
    } else {
      EndedFacts(s, r);
    }
  }

  lemma StartedFacts(s: State, r: State)
    requires StartedFirst(s, r)
    ensures IsPrefix(s.log, r.log)
    ensures r.aborted == s.aborted && r.total == s.total && r.payload == s.payload
    ensures IsSuffix(r.queue, s.queue)
    ensures NoneCancelled(NewEvents(s, r)) && AllWithPayload(NewEvents(s, r), s.payload)
    ensures r.bindingPresent && !NoneStarted(NewEvents(s, r))
    ensures ExecutedMappings(NewEvents(s, r)) + Compact(r.queue) == Compact(s.queue)
    ensures NoneReported(NewEvents(s, r))
    ensures DetainedBag(r.log) == DetainedBag(s.log) + (r.detained - s.detained)
    ensures ReleasedBag(r.log) == ReleasedBag(s.log)
  {
    var m := Compact(s.queue)[0];
    var c := Cmd(s.nextSerial, m.commandType);
    var e := [Execute(m, s.payload), Detain(c)];
    assert r.log == s.log + e;
    assert NewEvents(s, r) == e;
    assert Compact(s.queue) == [m] + Compact(s.queue)[1..];
    StartedBags(s.log, e, c);
    assert r.detained - s.detained == multiset{c};
  }

  lemma StartedBags(log: seq<Event>, e: seq<Event>, c: Cmd)
    requires |e| == 2 && e[0].Execute? && e[1] == Detain(c)
    ensures DetainedBag(log + e) == DetainedBag(log) + multiset{c}
    ensures ReleasedBag(log + e) == ReleasedBag(log)
    ensures ExecutedMappings(e) == [e[0].mapping]
  {
    SelectAppend(log, e, DetainedCommand);
    SelectAppend(log, e, ReleasedCommand);
    assert e == [e[0]] + [e[1]];
    SelectAppend([e[0]], [e[1]], DetainedCommand);
    SelectAppend([e[0]], [e[1]], ReleasedCommand);
    SelectAppend([e[0]], [e[1]], StartedMapping);
  }

  lemma EndedFacts(s: State, r: State)
    requires Ended(s, r)
    ensures IsPrefix(s.log, r.log)
    ensures r.aborted == s.aborted && r.total == s.total && r.payload == s.payload
    ensures IsSuffix(r.queue, s.queue) && r.queue == []
    ensures NoneCancelled(NewEvents(s, r)) && NoneStarted(NewEvents(s, r))
    ensures r.bindingPresent == s.bindingPresent
    ensures ExecutedMappings(NewEvents(s, r)) == []
    ensures !s.aborted ==> Compact(s.queue) == []
    ensures s.aborted ==> NeverAllExecuted(NewEvents(s, r))
    ensures NoneReported(NewEvents(s, r))
    ensures r.detained == s.detained
    ensures DetainedBag(r.log) == DetainedBag(s.log)
    ensures ReleasedBag(r.log) == ReleasedBag(s.log)
  {
    var e := if s.aborted then AbortedNotice(s.abortedCallback) else ExecutedNotice(s.executedCallback);
    assert r.log == s.log + e;
    assert NewEvents(s, r) == e;
    NoticeBags(s.log, e);
  }

  /** A terminal notification holds no mapping and no command. */
  lemma NoticeBags(log: seq<Event>, e: seq<Event>)
    requires |e| <= 1 && (|e| == 1 ==> e[0].AllAborted? || e[0].AllExecuted?)
    ensures DetainedBag(log + e) == DetainedBag(log)
    ensures ReleasedBag(log + e) == ReleasedBag(log)
    ensures ExecutedMappings(e) == []
  {
    SelectAppend(log, e, DetainedCommand);
    SelectAppend(log, e, ReleasedCommand);
  }

  lemma ReportedFacts(s: State, cmd: Cmd, stop: bool)
    ensures var t := Reported(s, cmd, stop);
      && IsPrefix(s.log, t.log)
      && |NewEvents(s, t)| > 0 && NewEvents(s, t)[0] == Release(cmd)
      && NoneStarted(NewEvents(s, t)) && NoneCancelled(NewEvents(s, t))
      && ExecutedMappings(NewEvents(s, t)) == []
      && ProgressWithin(NewEvents(s, t), s.total - |s.queue|, s.total - |s.queue|, s.total)
      && NeverAllExecuted(NewEvents(s, t))
      && DetainedBag(t.log) == DetainedBag(s.log)
      && ReleasedBag(t.log) == ReleasedBag(s.log) + multiset{cmd}
  {
    var t := Reported(s, cmd, stop);
    var pn := ProgressNotice(s.progressCallback, cmd.commandType, s.total - |s.queue|, s.total);
    assert t.log == s.log + ([Release(cmd)] + pn);
    ReportHead(s.log, cmd, pn, s.total - |s.queue|, s.total);
  }

  lemma ReportHead(log: seq<Event>, cmd: Cmd, pn: seq<Event>, current: int, total: nat)
    requires |pn| <= 1 && (|pn| == 1 ==> pn[0].Progress? && pn[0].current == current && pn[0].total == total)
    ensures var head := [Release(cmd)] + pn;
      && NoneStarted(head) && NoneCancelled(head) && NeverAllExecuted(head)
      && ExecutedMappings(head) == []
      && ProgressWithin(head, current, current, total)
      && DetainedBag(log + head) == DetainedBag(log)
      && ReleasedBag(log + head) == ReleasedBag(log) + multiset{cmd}
  {
    var head := [Release(cmd)] + pn;
    assert Select([Release(cmd)], StartedMapping) == [];
    assert Select([Release(cmd)], DetainedCommand) == [];
    assert Select([Release(cmd)], ReleasedCommand) == [cmd];
    assert Select(pn, StartedMapping) == [] && Select(pn, DetainedCommand) == []
        && Select(pn, ReleasedCommand) == [] by {
      if pn != [] {
        assert pn == [pn[0]];
      }
    }
    SelectAppend([Release(cmd)], pn, StartedMapping);
    SelectAppend([Release(cmd)], pn, DetainedCommand);
    SelectAppend([Release(cmd)], pn, ReleasedCommand);
    SelectAppend(log, head, DetainedCommand);
    SelectAppend(log, head, ReleasedCommand);
  }

  /** A drain step only appends to the log. */
  lemma DrainKeepsLog(s: State, r: State)
    requires DrainOutcome(s, r)
    ensures IsPrefix(s.log, r.log)
  {
    DrainFacts(s, r);
  }

  /** A completion's log extends the log of the state it hands to its drain step. */
  lemma CompletionKeepsReport(s: State, cmd: Cmd, stop: bool)
    ensures IsPrefix(Reported(s, cmd, stop).log, CommandExecutedCallback(s, cmd, stop).log)
  {
    DrainKeepsLog(Reported(s, cmd, stop), CommandExecutedCallback(s, cmd, stop));
  }

  /** A completion, seen through the log views: everything its drain step does,
      preceded by one release and at most one progress report. */
  lemma CompletionFacts(s: State, cmd: Cmd, stop: bool)
    ensures var r := CommandExecutedCallback(s, cmd, stop);
      && IsPrefix(s.log, r.log)
      && r.aborted == (s.aborted || stop)
      && r.total == s.total && r.payload == s.payload
      && IsSuffix(r.queue, s.queue)
      && (r.bindingPresent <==> !NoneStarted(NewEvents(s, r)))
      && NoneCancelled(NewEvents(s, r))
      && AllWithPayload(NewEvents(s, r), s.payload)
      && (r.aborted ==> NoneStarted(NewEvents(s, r)) && NeverAllExecuted(NewEvents(s, r)))
      && ProgressWithin(NewEvents(s, r), s.total - |s.queue|, s.total - |s.queue|, s.total)
  {
    var r := CommandExecutedCallback(s, cmd, stop);
    var t := Reported(s, cmd, stop);
    assert DrainOutcome(t, r);
    DrainFacts(t, r);
    ReportedFacts(s, cmd, stop);
    CompletionCompose(s, t, r, stop);
  }

  /** The facts of the report and of the drain step that follows it, joined. */
  lemma CompletionCompose(s: State, t: State, r: State, stop: bool)
    requires IsPrefix(s.log, t.log) && |NewEvents(s, t)| > 0 && NewEvents(s, t)[0].Release?
    requires NoneStarted(NewEvents(s, t)) && NoneCancelled(NewEvents(s, t))
    requires NeverAllExecuted(NewEvents(s, t))
    requires ProgressWithin(NewEvents(s, t), s.total - |s.queue|, s.total - |s.queue|, s.total)
    requires t.aborted == (s.aborted || stop) && !t.bindingPresent
    requires t.total == s.total && t.payload == s.payload && t.queue == s.queue
    requires IsPrefix(t.log, r.log)
    requires r.aborted == t.aborted && r.total == t.total && r.payload == t.payload
    requires IsSuffix(r.queue, t.queue)
    requires NoneCancelled(NewEvents(t, r)) && AllWithPayload(NewEvents(t, r), t.payload)
    requires r.bindingPresent == (t.bindingPresent || !NoneStarted(NewEvents(t, r)))
    requires t.aborted ==> NoneStarted(NewEvents(t, r)) && NeverAllExecuted(NewEvents(t, r))
    requires NoneReported(NewEvents(t, r))
    ensures IsPrefix(s.log, r.log)
    ensures r.aborted == (s.aborted || stop)
    ensures r.total == s.total && r.payload == s.payload
    ensures IsSuffix(r.queue, s.queue)
    ensures r.bindingPresent <==> !NoneStarted(NewEvents(s, r))
    ensures NoneCancelled(NewEvents(s, r))
    ensures AllWithPayload(NewEvents(s, r), s.payload)
    ensures r.aborted ==> NoneStarted(NewEvents(s, r)) && NeverAllExecuted(NewEvents(s, r))
    ensures ProgressWithin(NewEvents(s, r), s.total - |s.queue|, s.total - |s.queue|, s.total)
  {
    NewEventsSplit(s, t, r);
    CompletionLog(NewEvents(s, t), NewEvents(t, r), s.payload, t.aborted,
                  s.total - |s.queue|, s.total);
  }

  lemma CompletionLog(head: seq<Event>, tail: seq<Event>, p: Option<Payload>, aborted: bool,
                      current: int, total: nat)
    requires |head| > 0 && head[0].Release?
    requires NoneStarted(head) && NoneCancelled(head) && NeverAllExecuted(head)
    requires ProgressWithin(head, current, current, total)
    requires NoneCancelled(tail) && AllWithPayload(tail, p) && NoneReported(tail)
    requires aborted ==> NoneStarted(tail) && NeverAllExecuted(tail)
    ensures NoneStarted(head + tail) <==> NoneStarted(tail)
    ensures NoneCancelled(head + tail) && AllWithPayload(head + tail, p)
    ensures aborted ==> NoneStarted(head + tail) && NeverAllExecuted(head + tail)
    ensures ProgressWithin(head + tail, current, current, total)
  {
    var e := head + tail;
    if !NoneStarted(tail) {
      var k :| 0 <= k < |tail| && tail[k].Execute?;
      assert e[|head| + k] == tail[k];
    }
  }

  /** A completion's effect on the order of started mappings and on the ledger. */
  lemma CompletionOrderAndBags(s: State, cmd: Cmd, stop: bool)
    ensures var r := CommandExecutedCallback(s, cmd, stop);
      && IsPrefix(s.log, r.log)
      && IsPrefix(ExecutedMappings(NewEvents(s, r)) + Compact(r.queue), Compact(s.queue))
      && (!r.aborted ==> ExecutedMappings(NewEvents(s, r)) + Compact(r.queue) == Compact(s.queue))
      && DetainedBag(r.log) == DetainedBag(s.log) + (r.detained - (s.detained - multiset{cmd}))
      && ReleasedBag(r.log) == ReleasedBag(s.log) + multiset{cmd}
  {
    var r := CommandExecutedCallback(s, cmd, stop);
    var t := Reported(s, cmd, stop);
    assert DrainOutcome(t, r);
    DrainFacts(t, r);
    ReportedFacts(s, cmd, stop);
    NewEventsSplit(s, t, r);
    SelectAppend(NewEvents(s, t), NewEvents(t, r), StartedMapping);
  }

  /* ---------------------------------------------------------------------- */
  /* Composing steps                                                        */
  /* ---------------------------------------------------------------------- */

  lemma NewEventsSplit(a: State, b: State, c: State)
    requires IsPrefix(a.log, b.log) && IsPrefix(b.log, c.log)
    ensures IsPrefix(a.log, c.log)
    ensures NewEvents(a, c) == NewEvents(a, b) + NewEvents(b, c)
  {
    PrefixTransitive(a.log, b.log, c.log);
    assert c.log == c.log[..|b.log|] + c.log[|b.log|..];
  }

  lemma PrefixExtend<T>(x: seq<T>, a: seq<T>, b: seq<T>)
    requires IsPrefix(a, b)
    ensures IsPrefix(x + a, x + b)
  {
    assert (x + b)[..|x + a|] == x + b[..|a|];
  }

  /* ---------------------------------------------------------------------- */
  /* Steps that start nothing                                               */
  /* ---------------------------------------------------------------------- */

  /** Aborting, setting a callback and relaying a result leave the queue, the
      retention ledger and every notification alone; only an abort that cancels
      logs a cancellation. */
  lemma QuietStepFacts(s: State, i: Input)
    requires !i.Start? && !i.Completion?
    ensures var r := Step(s, i);
      && r.queue == s.queue && r.total == s.total && r.payload == s.payload
      && r.bindingPresent == s.bindingPresent && r.detained == s.detained
      && r.current == s.current && r.nextSerial == s.nextSerial
      && (!IsSetter(i) ==> r.abortedCallback == s.abortedCallback
                           && r.executedCallback == s.executedCallback
                           && r.progressCallback == s.progressCallback)
      && NoneStarted(NewEvents(s, r)) && NeverAllExecuted(NewEvents(s, r))
      && NoneReported(NewEvents(s, r)) && Notices(NewEvents(s, r)) == []
      && ExecutedMappings(NewEvents(s, r)) == []
      && (NoneCancelled(NewEvents(s, r)) <==> !(i == AbortRequest(true) && s.current.Some?))
      && DetainedBag(r.log) == DetainedBag(s.log)
      && ReleasedBag(r.log) == ReleasedBag(s.log)
  {
    var r := Step(s, i);
    var e := NewEvents(s, r);
    assert r.log == s.log + e;
    QuietEvents(s.log, e);
  }

  lemma QuietEvents(log: seq<Event>, e: seq<Event>)
    requires |e| <= 1 && (|e| == 1 ==> e[0].CancelCurrent? || e[0].ResultRelayed?)
    ensures NoneStarted(e) && NeverAllExecuted(e) && NoneReported(e)
    ensures Notices(e) == [] && ExecutedMappings(e) == []
    ensures DetainedBag(log + e) == DetainedBag(log)
    ensures ReleasedBag(log + e) == ReleasedBag(log)
  {
    SelectAppend(log, e, DetainedCommand);
    SelectAppend(log, e, ReleasedCommand);
  }

  /** Starting a run, seen through the log views. */
  lemma StartStepFacts(s: State, ms: seq<Option<Mapping>>, p: Payload)
    ensures var r := Step(s, Start(ms, p));
            var loaded := s.(queue := ms, total := |ms|, payload := Some(p), bindingPresent := false);
      && DrainOutcome(loaded, r)
      && NewEvents(s, r) == NewEvents(loaded, r)
      && r.total == |ms| && r.payload == Some(p) && IsSuffix(r.queue, ms)
      && r.aborted == s.aborted
      && r.abortedCallback == s.abortedCallback && r.executedCallback == s.executedCallback
      && r.progressCallback == s.progressCallback
      && NoneCancelled(NewEvents(s, r)) && NoneReported(NewEvents(s, r))
      && AllWithPayload(NewEvents(s, r), Some(p))
      && (r.bindingPresent <==> !NoneStarted(NewEvents(s, r)))
      && IsPrefix(ExecutedMappings(NewEvents(s, r)) + Compact(r.queue), Compact(ms))
      && (!r.aborted ==> ExecutedMappings(NewEvents(s, r)) + Compact(r.queue) == Compact(ms))
      && (s.aborted ==> NoneStarted(NewEvents(s, r)) && NeverAllExecuted(NewEvents(s, r)))
      && DetainedBag(r.log) == DetainedBag(s.log) + (r.detained - s.detained)
      && ReleasedBag(r.log) == ReleasedBag(s.log)
  {
    var loaded := s.(queue := ms, total := |ms|, payload := Some(p), bindingPresent := false);
    var r := Step(s, Start(ms, p));
    assert r == ExecuteAsyncCommands(s, ms, p);
    DrainFacts(loaded, r);
  }

  /** A completion, gathered from the lemmas above. */
  lemma CompletionStepFacts(s: State, c: Cmd, stop: bool)
    ensures var r := Step(s, Completion(c, stop));
      && r == CommandExecutedCallback(s, c, stop)
      && r.total == s.total && r.payload == s.payload && IsSuffix(r.queue, s.queue)
      && r.abortedCallback == s.abortedCallback && r.executedCallback == s.executedCallback
      && r.progressCallback == s.progressCallback
      && NoneCancelled(NewEvents(s, r)) && AllWithPayload(NewEvents(s, r), s.payload)
      && (r.bindingPresent <==> !NoneStarted(NewEvents(s, r)))
      && (r.aborted ==> NoneStarted(NewEvents(s, r)) && NeverAllExecuted(NewEvents(s, r)))
      && ProgressWithin(NewEvents(s, r), s.total - |s.queue|, s.total - |s.queue|, s.total)
      && IsPrefix(ExecutedMappings(NewEvents(s, r)) + Compact(r.queue), Compact(s.queue))
      && (!r.aborted ==> ExecutedMappings(NewEvents(s, r)) + Compact(r.queue) == Compact(s.queue))
      && DetainedBag(r.log) == DetainedBag(s.log) + (r.detained - (s.detained - multiset{c}))
      && ReleasedBag(r.log) == ReleasedBag(s.log) + multiset{c}
  {
    var r := Step(s, Completion(c, stop));
    assert r == CommandExecutedCallback(s, c, stop);
    CompletionFacts(s, c, stop);
    CompletionOrderAndBags(s, c, stop);
    var t := Reported(s, c, stop);
    assert DrainOutcome(t, r);
  }
}
