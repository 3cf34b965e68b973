/**
  Whole runs of the executor over a sequence without null mappings, with the
  environment letting each command complete as soon as it is started. These
  lemmas pin down the exact callback sequence of a run that goes to the end and
  of a run that a command stops part-way, and which mappings each one starts.
*/
module ExecutorScenarios {
  import opened Wrappers
  import opened ExecutorState
  import opened AsyncCommandExecutor
  import opened ExecutorSteps

  /** The current command reports completion without asking to stop, `n` times in a row. */
  function CompleteInTurn(s: State, n: nat): (r: State)
    ensures IsPrefix(s.log, r.log)
    decreases n
  {
    if n == 0 then s
    else
      var t := CompleteInTurn(s, n - 1);
      match t.current
      case None => t
      case Some(c) =>
        var r := CommandExecutedCallback(t, c, false);
        CompletionExtendsLog(t, c, false);
        PrefixTransitive(s.log, t.log, r.log);
        r
  }

  lemma CompletionExtendsLog(t: State, c: Cmd, stop: bool)
    ensures IsPrefix(t.log, CommandExecutedCallback(t, c, stop).log)
  {
    var r := CommandExecutedCallback(t, c, stop);
    var rep := Reported(t, c, stop);
    ReportedFacts(t, c, stop);
    DrainFacts(rep, r);
    PrefixTransitive(t.log, rep.log, r.log);
  }

  /** Step `k` (1-based) of a run over `ms` is in flight: its command is current,
      the mappings after it are still queued, and nothing has aborted the run. */
  ghost predicate InFlight(s: State, ms: seq<Option<Mapping>>, k: nat)
  {
    && NoNulls(ms) && 1 <= k <= |ms|
    && !s.aborted && s.total == |ms| && s.queue == ms[k..]
    && s.current.Some? && s.current.value.commandType == ms[k - 1].value.commandType
  }

  /** The progress reports for steps `lo + 1 .. hi` of a run over `ms`. */
  function StepReports(cb: Option<CallbackId>, ms: seq<Option<Mapping>>, lo: nat, hi: nat): seq<Event>
    requires NoNulls(ms) && lo <= hi <= |ms|
    decreases hi
  {
    if hi == lo then []
    else StepReports(cb, ms, lo, hi - 1) + ProgressNotice(cb, ms[hi - 1].value.commandType, hi, |ms|)
  }

  /* ---------------------------------------------------------------------- */
  /* Log helpers                                                            */
  /* ---------------------------------------------------------------------- */

  lemma {:induction false} CompactAppend(a: seq<Option<Mapping>>, b: seq<Option<Mapping>>)
    ensures Compact(a + b) == Compact(a) + Compact(b)
  {
    if a == [] {
      assert a + b == b;
    } else {
      assert (a + b)[0] == a[0];
      assert (a + b)[1..] == a[1..] + b;
      CompactAppend(a[1..], b);
    }
  }

  lemma CompactSingleton(o: Option<Mapping>)
    requires o.Some?
    ensures Compact([o]) == [o.value]
  {
    assert [o][1..] == [];
  }

  lemma NoticesAppend(a: seq<Event>, b: seq<Event>)
    ensures Notices(a + b) == Notices(a) + Notices(b)
    ensures ExecutedMappings(a + b) == ExecutedMappings(a) + ExecutedMappings(b)
  {
    SelectAppend(a, b, CallbackInvocation);
    SelectAppend(a, b, StartedMapping);
  }

  /** A start hands one mapping over and invokes no callback. */
  lemma StartEvents(m: Mapping, p: Option<Payload>, c: Cmd)
    ensures Notices([Execute(m, p), Detain(c)]) == []
    ensures ExecutedMappings([Execute(m, p), Detain(c)]) == [m]
  {
    NoticesAppend([Execute(m, p)], [Detain(c)]);
    assert [Execute(m, p), Detain(c)] == [Execute(m, p)] + [Detain(c)];
  }

  /** A callback invocation is its own notice and starts nothing. */
  lemma NoticeEvents(e: seq<Event>)
    requires |e| <= 1 && (|e| == 1 ==> e[0].Progress? || e[0].AllAborted? || e[0].AllExecuted?)
    ensures Notices(e) == e && ExecutedMappings(e) == []
  {
  }

  lemma ProgressNoticeShape(cb: Option<CallbackId>, t: CommandType, current: int, total: nat)
    ensures var e := ProgressNotice(cb, t, current, total);
      |e| <= 1 && (|e| == 1 ==> e[0].Progress?)
  {
  }

  /** The events of one completion: release, progress, then what the drain step did. */
  lemma CompletionEvents(c: Cmd, pn: seq<Event>, tail: seq<Event>)
    requires |pn| <= 1 && (|pn| == 1 ==> pn[0].Progress?)
    ensures Notices([Release(c)] + pn + tail) == pn + Notices(tail)
    ensures ExecutedMappings([Release(c)] + pn + tail) == ExecutedMappings(tail)
  {
    NoticesAppend([Release(c)] + pn, tail);
    NoticesAppend([Release(c)], pn);
    NoticeEvents(pn);
  }

  /* ---------------------------------------------------------------------- */
  /* One step of a run                                                      */
  /* ---------------------------------------------------------------------- */

  /** A drain step over a queue without nulls starts exactly its head. */
  lemma HeadStarts(t: State, r: State)
    requires StartedFirst(t, r) && NoNulls(t.queue)
    ensures |t.queue| > 0 && r.queue == t.queue[1..]
    ensures r.current == Some(Cmd(t.nextSerial, t.queue[0].value.commandType))
    ensures r.log == t.log + [Execute(t.queue[0].value, t.payload), Detain(r.current.value)]
    ensures r == t.(queue := r.queue, current := r.current, detained := r.detained,
                    bindingPresent := true, nextSerial := r.nextSerial, log := r.log)
  {
    assert t.queue[0].Some?;
    assert t.queue[|t.queue| - |r.queue| - 1] == Some(Compact(t.queue)[0]);
  }

  lemma StartInFlight(s: State, ms: seq<Option<Mapping>>, p: Payload)
    requires !s.aborted && NoNulls(ms) && |ms| > 0
    ensures var r := ExecuteAsyncCommands(s, ms, p);
      && InFlight(r, ms, 1)
      && r.abortedCallback == s.abortedCallback && r.executedCallback == s.executedCallback
      && r.progressCallback == s.progressCallback
      && Notices(NewEvents(s, r)) == [] && ExecutedMappings(NewEvents(s, r)) == [ms[0].value]
  {
    var r := ExecuteAsyncCommands(s, ms, p);
    var loaded := s.(queue := ms, total := |ms|, payload := Some(p), bindingPresent := false);
    assert Compact(ms) == [ms[0].value] + Compact(ms[1..]);
    assert StartedFirst(loaded, r);
    HeadStarts(loaded, r);
    assert NewEvents(s, r) == [Execute(ms[0].value, Some(p)), Detain(r.current.value)];
    StartEvents(ms[0].value, Some(p), r.current.value);
  }

  /** Completing step `k` while later steps remain starts step `k + 1`. */
  lemma InTurnStep(s: State, ms: seq<Option<Mapping>>, k: nat)
    requires InFlight(s, ms, k) && k < |ms|
    ensures var r := CommandExecutedCallback(s, s.current.value, false);
      && InFlight(r, ms, k + 1)
      && r.abortedCallback == s.abortedCallback && r.executedCallback == s.executedCallback
      && r.progressCallback == s.progressCallback
      && Notices(NewEvents(s, r)) == ProgressNotice(s.progressCallback, ms[k - 1].value.commandType, k, |ms|)
      && ExecutedMappings(NewEvents(s, r)) == [ms[k].value]
  {
    var c := s.current.value;
    var r := CommandExecutedCallback(s, c, false);
    var t := Reported(s, c, false);
    assert DrainOutcome(t, r);
    assert t.queue == ms[k..] && t.queue[0] == ms[k] && t.queue[1..] == ms[k + 1..];
    assert NoNulls(t.queue);
    assert Compact(t.queue) == [ms[k].value] + Compact(ms[k + 1..]);
    assert StartedFirst(t, r);
    HeadStarts(t, r);
    var pn := ProgressNotice(s.progressCallback, c.commandType, k, |ms|);
    var tail := [Execute(ms[k].value, t.payload), Detain(r.current.value)];
    assert t.log == s.log + ([Release(c)] + pn);
    assert NewEvents(s, r) == [Release(c)] + pn + tail;
    ProgressNoticeShape(s.progressCallback, c.commandType, k, |ms|);
    CompletionEvents(c, pn, tail);
    StartEvents(ms[k].value, t.payload, r.current.value);
  }

  /** Completing the last step ends the run with "all executed". */
  lemma LastStep(s: State, ms: seq<Option<Mapping>>)
    requires InFlight(s, ms, |ms|)
    ensures var r := CommandExecutedCallback(s, s.current.value, false);
      && IsPrefix(s.log, r.log)
      && !r.aborted && r.queue == [] && r.current == s.current
      && NewEvents(s, r)[0] == Release(s.current.value)
      && Notices(NewEvents(s, r))
           == ProgressNotice(s.progressCallback, ms[|ms| - 1].value.commandType, |ms|, |ms|)
              + ExecutedNotice(s.executedCallback)
      && ExecutedMappings(NewEvents(s, r)) == []
  {
    var c := s.current.value;
    var r := CommandExecutedCallback(s, c, false);
    var t := Reported(s, c, false);
    assert DrainOutcome(t, r);
    assert t.queue == [];
    assert Ended(t, r);
    var pn := ProgressNotice(s.progressCallback, c.commandType, |ms|, |ms|);
    var tail := ExecutedNotice(s.executedCallback);
    assert t.log == s.log + ([Release(c)] + pn);
    assert NewEvents(s, r) == [Release(c)] + pn + tail;
    ProgressNoticeShape(s.progressCallback, c.commandType, |ms|, |ms|);
    CompletionEvents(c, pn, tail);
    NoticeEvents(tail);
  }

  /** Completing step `k` with a request to stop ends the run with "all aborted". */
  lemma StoppingStep(s: State, ms: seq<Option<Mapping>>, k: nat)
    requires InFlight(s, ms, k)
    ensures var r := CommandExecutedCallback(s, s.current.value, true);
      && IsPrefix(s.log, r.log)
      && r.aborted && r.queue == []
      && Notices(NewEvents(s, r))
           == ProgressNotice(s.progressCallback, ms[k - 1].value.commandType, k, |ms|)
              + AbortedNotice(s.abortedCallback)
      && ExecutedMappings(NewEvents(s, r)) == []
  {
    var c := s.current.value;
    var r := CommandExecutedCallback(s, c, true);
    var t := Reported(s, c, true);
    assert DrainOutcome(t, r);
    assert Ended(t, r);
    var pn := ProgressNotice(s.progressCallback, c.commandType, k, |ms|);
    var tail := AbortedNotice(s.abortedCallback);
    assert t.log == s.log + ([Release(c)] + pn);
    assert NewEvents(s, r) == [Release(c)] + pn + tail;
    ProgressNoticeShape(s.progressCallback, c.commandType, k, |ms|);
    CompletionEvents(c, pn, tail);
    NoticeEvents(tail);
  }

  /** When the progress callback of step `k` aborts the executor, the run ends
      there: step `k` is reported, "all aborted" is invoked, no later mapping is
      started, and the cancellation goes to the command that has just finished. */
  lemma ObserverAbortStartsNothing(s: State, ms: seq<Option<Mapping>>, k: nat)
    requires InFlight(s, ms, k) && s.progressCallback.Some?
    ensures var c := s.current.value;
            var a := CommandExecutedCallbackWithObserverAbort(s, c, false, true);
      && a.aborted && a.queue == []
      && Notices(NewEvents(s, a))
           == [Progress(s.progressCallback.value, ms[k - 1].value.commandType, k, |ms|)]
              + AbortedNotice(s.abortedCallback)
      && ExecutedMappings(NewEvents(s, a)) == []
      && CancelCurrent(c) in NewEvents(s, a)
  {
    var c := s.current.value;
    var a := CommandExecutedCallbackWithObserverAbort(s, c, false, true);
    var pn := [Progress(s.progressCallback.value, c.commandType, k, |ms|)];
    var cancel := [CancelCurrent(c)];
    var tail := cancel + AbortedNotice(s.abortedCallback);
    assert NewEvents(s, a) == [Release(c)] + pn + tail;
    CompletionEvents(c, pn, tail);
    NoticesAppend(cancel, AbortedNotice(s.abortedCallback));
    assert cancel[1..] == [];
    NoticeEvents(AbortedNotice(s.abortedCallback));
    assert NewEvents(s, a)[2] == CancelCurrent(c);
  }

  /** An abort that comes only after the completion of step `k` is too late to
      hold the run back: mapping `k + 1` has already been handed over, and the
      cancellation goes to the command built for it. */
  lemma AbortAfterCompletionCancelsNextCommand(s: State, ms: seq<Option<Mapping>>, k: nat)
    requires InFlight(s, ms, k) && k < |ms|
    ensures var t := CommandExecutedCallback(s, s.current.value, false);
            var b := Abort(t, true);
      && IsPrefix(s.log, b.log)
      && ExecutedMappings(NewEvents(s, b)) == [ms[k].value]
      && b.current.Some? && b.current.value.commandType == ms[k].value.commandType
      && NewEvents(t, b) == [CancelCurrent(b.current.value)]
  {
    var t := CommandExecutedCallback(s, s.current.value, false);
    var b := Abort(t, true);
    InTurnStep(s, ms, k);
    NewEventsSplit(s, t, b);
    NoticesAppend(NewEvents(s, t), NewEvents(t, b));
    assert [CancelCurrent(b.current.value)][1..] == [];
  }

  /* ---------------------------------------------------------------------- */
  /* Whole runs                                                             */
  /* ---------------------------------------------------------------------- */

  /** What completing step `i` in turn does, whenever step `i` is in flight and is
      not the last one. */
  ghost predicate StepSummary(t: State, r: State, ms: seq<Option<Mapping>>, i: nat)
  {
    InFlight(t, ms, i) && i < |ms| ==>
      && IsPrefix(t.log, r.log)
      && InFlight(r, ms, i + 1)
      && r.abortedCallback == t.abortedCallback && r.executedCallback == t.executedCallback
      && r.progressCallback == t.progressCallback
      && Notices(NewEvents(t, r)) == ProgressNotice(t.progressCallback, ms[i - 1].value.commandType, i, |ms|)
      && ExecutedMappings(NewEvents(t, r)) == [ms[i].value]
  }

  /** What completing the last step does, whenever it is in flight. */
  ghost predicate EndSummary(t: State, r: State, ms: seq<Option<Mapping>>)
  {
    InFlight(t, ms, |ms|) ==>
      && IsPrefix(t.log, r.log)
      && !r.aborted && r.queue == [] && r.current == t.current
      && |NewEvents(t, r)| > 0 && NewEvents(t, r)[0] == Release(t.current.value)
      && Notices(NewEvents(t, r))
           == ProgressNotice(t.progressCallback, ms[|ms| - 1].value.commandType, |ms|, |ms|)
              + ExecutedNotice(t.executedCallback)
      && ExecutedMappings(NewEvents(t, r)) == []
  }

  lemma InTurnSummary(t: State, ms: seq<Option<Mapping>>, i: nat)
    requires t.current.Some?
    ensures StepSummary(t, CommandExecutedCallback(t, t.current.value, false), ms, i)
  {
    if InFlight(t, ms, i) && i < |ms| {
      InTurnStep(t, ms, i);
    }
  }

  lemma EndSummaryHolds(t: State, ms: seq<Option<Mapping>>)
    requires t.current.Some?
    ensures EndSummary(t, CommandExecutedCallback(t, t.current.value, false), ms)
  {
    if InFlight(t, ms, |ms|) {
      LastStep(t, ms);
    }
  }

  /** What completing step `i` with a request to stop does, whenever it is in flight. */
  ghost predicate StopSummary(t: State, r: State, ms: seq<Option<Mapping>>, i: nat)
  {
    InFlight(t, ms, i) ==>
      && IsPrefix(t.log, r.log)
      && r.aborted && r.queue == []
      && Notices(NewEvents(t, r))
           == ProgressNotice(t.progressCallback, ms[i - 1].value.commandType, i, |ms|)
              + AbortedNotice(t.abortedCallback)
      && ExecutedMappings(NewEvents(t, r)) == []
  }

  lemma StopSummaryHolds(t: State, ms: seq<Option<Mapping>>, i: nat)
    requires t.current.Some?
    ensures StopSummary(t, CommandExecutedCallback(t, t.current.value, true), ms, i)
  {
    if InFlight(t, ms, i) {
      StoppingStep(t, ms, i);
    }
  }

  lemma CompleteInTurnSummary(s: State, ms: seq<Option<Mapping>>, k: nat, i: nat)
    ensures StepSummary(CompleteInTurn(s, i), CompleteInTurn(s, i + 1), ms, k + i)
  {
    var t := CompleteInTurn(s, i);
    if t.current.Some? {
      assert CompleteInTurn(s, i + 1) == CommandExecutedCallback(t, t.current.value, false);
      InTurnSummary(t, ms, k + i);
    }
  }

  lemma InTurnSummaries(s: State, ms: seq<Option<Mapping>>, k: nat, j: nat)
    ensures forall i :: 0 <= i < j ==> StepSummary(CompleteInTurn(s, i), CompleteInTurn(s, i + 1), ms, k + i)
  {
    forall i | 0 <= i < j
      ensures StepSummary(CompleteInTurn(s, i), CompleteInTurn(s, i + 1), ms, k + i)
    {
      CompleteInTurnSummary(s, ms, k, i);
    }
  }

  /** Along a chain of states in which each step from `k` on is completed in turn,
      `j` steps on, step `k + j` is in flight with the same callbacks, ... */
  lemma {:induction false} ChainReachesStep(states: seq<State>, ms: seq<Option<Mapping>>, k: nat, j: nat)
    requires j < |states| && InFlight(states[0], ms, k) && k + j <= |ms|
    requires forall i :: 0 <= i < j ==> StepSummary(states[i], states[i + 1], ms, k + i)
    ensures InFlight(states[j], ms, k + j)
    ensures states[j].abortedCallback == states[0].abortedCallback
    ensures states[j].executedCallback == states[0].executedCallback
    ensures states[j].progressCallback == states[0].progressCallback
    ensures IsPrefix(states[0].log, states[j].log)
  {
    if j > 0 {
      ChainReachesStep(states, ms, k, j - 1);
      assert StepSummary(states[j - 1], states[j], ms, k + (j - 1));
      PrefixTransitive(states[0].log, states[j - 1].log, states[j].log);
    }
  }

  /** ... steps `k .. k + j - 1` have been reported, in order, ... */
  lemma {:induction false} ChainReports(states: seq<State>, ms: seq<Option<Mapping>>, k: nat, j: nat)
    requires j < |states| && InFlight(states[0], ms, k) && k + j <= |ms|
    requires forall i :: 0 <= i < j ==> StepSummary(states[i], states[i + 1], ms, k + i)
    ensures IsPrefix(states[0].log, states[j].log)
    ensures Notices(NewEvents(states[0], states[j])) == StepReports(states[0].progressCallback, ms, k - 1, k - 1 + j)
  {
    ChainReachesStep(states, ms, k, j);
    if j > 0 {
      ChainReports(states, ms, k, j - 1);
      ChainReachesStep(states, ms, k, j - 1);
      assert StepSummary(states[j - 1], states[j], ms, k + (j - 1));
      NewEventsSplit(states[0], states[j - 1], states[j]);
      NoticesAppend(NewEvents(states[0], states[j - 1]), NewEvents(states[j - 1], states[j]));
      var cb := states[0].progressCallback;
      assert k - 1 + j == k + (j - 1) && k - 1 + (j - 1) == k + (j - 1) - 1;
      assert StepReports(cb, ms, k - 1, k - 1 + j)
          == StepReports(cb, ms, k - 1, k - 1 + (j - 1))
             + ProgressNotice(cb, ms[k + (j - 1) - 1].value.commandType, k + (j - 1), |ms|);
    }
  }

  /** ... and the mappings of steps `k + 1 .. k + j` have been started, in order. */
  lemma {:induction false} ChainStarts(states: seq<State>, ms: seq<Option<Mapping>>, k: nat, j: nat)
    requires j < |states| && InFlight(states[0], ms, k) && k + j <= |ms|
    requires forall i :: 0 <= i < j ==> StepSummary(states[i], states[i + 1], ms, k + i)
    ensures IsPrefix(states[0].log, states[j].log)
    ensures ExecutedMappings(NewEvents(states[0], states[j])) == Compact(ms[k..k + j])
  {
    ChainReachesStep(states, ms, k, j);
    if j == 0 {
      assert ms[k..k] == [];
    } else {
      ChainStarts(states, ms, k, j - 1);
      ChainReachesStep(states, ms, k, j - 1);
      assert StepSummary(states[j - 1], states[j], ms, k + (j - 1));
      assert k + j - 1 == k + (j - 1);
      MappingsExtend(states[0], states[j - 1], states[j], Compact(ms[k..k + j - 1]), ms[k + j - 1].value);
      CompactExtend(ms, k, j);
    }
  }

  lemma MappingsExtend(x: State, y: State, z: State, before: seq<Mapping>, m: Mapping)
    requires IsPrefix(x.log, y.log) && IsPrefix(y.log, z.log)
    requires ExecutedMappings(NewEvents(x, y)) == before
    requires ExecutedMappings(NewEvents(y, z)) == [m]
    ensures IsPrefix(x.log, z.log)
    ensures ExecutedMappings(NewEvents(x, z)) == before + [m]
  {
    NewEventsSplit(x, y, z);
    NoticesAppend(NewEvents(x, y), NewEvents(y, z));
  }

  lemma CompactExtend(ms: seq<Option<Mapping>>, k: nat, j: nat)
    requires 0 < j && k + j <= |ms| && ms[k + j - 1].Some?
    ensures Compact(ms[k..k + j]) == Compact(ms[k..k + j - 1]) + [ms[k + j - 1].value]
  {
    assert ms[k..k + j] == ms[k..k + j - 1] + [ms[k + j - 1]];
    CompactAppend(ms[k..k + j - 1], [ms[k + j - 1]]);
    CompactSingleton(ms[k + j - 1]);
  }

  /** `j` completions in turn from step `k` leave step `k + j` in flight, having
      reported steps `k .. k + j - 1` and started the mappings of steps
      `k + 1 .. k + j`. */
  lemma CompletionsInTurn(s: State, ms: seq<Option<Mapping>>, k: nat, j: nat)
    requires InFlight(s, ms, k) && k + j <= |ms|
    ensures var r := CompleteInTurn(s, j);
      && InFlight(r, ms, k + j)
      && r.abortedCallback == s.abortedCallback && r.executedCallback == s.executedCallback
      && r.progressCallback == s.progressCallback
      && Notices(NewEvents(s, r)) == StepReports(s.progressCallback, ms, k - 1, k - 1 + j)
      && ExecutedMappings(NewEvents(s, r)) == Compact(ms[k..k + j])
  {
    var states := seq(j + 1, i requires 0 <= i <= j => CompleteInTurn(s, i));
    InTurnSummaries(s, ms, k, j);
    assert forall i :: 0 <= i < j ==> StepSummary(states[i], states[i + 1], ms, k + i);
    assert states[0] == s;
    ChainReachesStep(states, ms, k, j);
    ChainReports(states, ms, k, j);
    ChainStarts(states, ms, k, j);
  }

  /** The last completion of a run that has reached its last step in turn. */
  lemma EndOfChain(t0: State, t: State, r: State, ms: seq<Option<Mapping>>, j: nat)
    requires j + 1 == |ms| && InFlight(t, ms, j + 1) && IsPrefix(t0.log, t.log)
    requires t.executedCallback == t0.executedCallback && t.progressCallback == t0.progressCallback
    requires Notices(NewEvents(t0, t)) == StepReports(t0.progressCallback, ms, 0, j)
    requires ExecutedMappings(NewEvents(t0, t)) == Compact(ms[1..j + 1])
    requires EndSummary(t, r, ms)
    ensures IsPrefix(t0.log, r.log)
    ensures !r.aborted && r.queue == []
    ensures r.current.Some? && Release(r.current.value) in NewEvents(t0, r)
    ensures Notices(NewEvents(t0, r)) == StepReports(t0.progressCallback, ms, 0, |ms|) + ExecutedNotice(t0.executedCallback)
    ensures ExecutedMappings(NewEvents(t0, r)) == Compact(ms[1..])
  {
    assert InFlight(t, ms, |ms|);
    NewEventsSplit(t0, t, r);
    var cb := t0.progressCallback;
    var last := ProgressNotice(cb, ms[|ms| - 1].value.commandType, |ms|, |ms|);
    assert StepReports(cb, ms, 0, |ms|) == StepReports(cb, ms, 0, j) + last;
    SameSlice(ms, 1, j + 1, 1, |ms|);
    assert ms[1..|ms|] == ms[1..];
    EndJoin(NewEvents(t0, t), NewEvents(t, r), StepReports(cb, ms, 0, j), last,
            ExecutedNotice(t0.executedCallback), Compact(ms[1..]), Release(t.current.value));
  }

  /** Joining the events of a run so far with those of its last completion. */
  lemma EndJoin(e1: seq<Event>, e2: seq<Event>, before: seq<Event>, last: seq<Event>, fin: seq<Event>,
                started: seq<Mapping>, release: Event)
    requires Notices(e1) == before && Notices(e2) == last + fin
    requires ExecutedMappings(e1) == started && ExecutedMappings(e2) == []
    requires |e2| > 0 && e2[0] == release
    ensures release in e1 + e2
    ensures Notices(e1 + e2) == before + last + fin
    ensures ExecutedMappings(e1 + e2) == started
  {
    NoticesAppend(e1, e2);
    assert (e1 + e2)[|e1|] == release;
  }

  /** The final completion of a state reached from `t0` by steps `1 .. j` in turn,
      `j + 1` being the last step. */
  lemma EndAfterChain(t0: State, t: State, ms: seq<Option<Mapping>>, j: nat)
    requires j + 1 == |ms| && InFlight(t, ms, j + 1) && IsPrefix(t0.log, t.log)
    requires t.executedCallback == t0.executedCallback && t.progressCallback == t0.progressCallback
    requires Notices(NewEvents(t0, t)) == StepReports(t0.progressCallback, ms, 0, j)
    requires ExecutedMappings(NewEvents(t0, t)) == Compact(ms[1..j + 1])
    ensures var r := CommandExecutedCallback(t, t.current.value, false);
      && IsPrefix(t0.log, r.log)
      && !r.aborted && r.queue == []
      && r.current.Some? && Release(r.current.value) in NewEvents(t0, r)
      && Notices(NewEvents(t0, r)) == StepReports(t0.progressCallback, ms, 0, |ms|) + ExecutedNotice(t0.executedCallback)
      && ExecutedMappings(NewEvents(t0, r)) == Compact(ms[1..])
  {
    EndSummaryHolds(t, ms);
    EndOfChain(t0, t, CommandExecutedCallback(t, t.current.value, false), ms, j);
  }

  /** One more completion in turn, when a command is current. It only unfolds the
      definition once; it is stated apart to keep the proofs that use it within the
      resource limit. */
  lemma CompleteInTurnNext(s: State, n: nat)
    requires CompleteInTurn(s, n).current.Some?
    ensures CompleteInTurn(s, n + 1)
         == CommandExecutedCallback(CompleteInTurn(s, n), CompleteInTurn(s, n).current.value, false)
  { }

  /** From step 1 in flight, completing every step in turn reports each of them
      and then "all executed", and starts the mappings after the first. */
  lemma InTurnToEnd(t0: State, ms: seq<Option<Mapping>>)
    requires InFlight(t0, ms, 1)
    ensures var r := CompleteInTurn(t0, |ms|);
      && IsPrefix(t0.log, r.log)
      && !r.aborted && r.queue == []
      && r.current.Some? && Release(r.current.value) in NewEvents(t0, r)
      && Notices(NewEvents(t0, r)) == StepReports(t0.progressCallback, ms, 0, |ms|) + ExecutedNotice(t0.executedCallback)
      && ExecutedMappings(NewEvents(t0, r)) == Compact(ms[1..])
  {
    var n := |ms| - 1;
    InTurnFromStart(t0, ms, n);
    CompleteInTurnNext(t0, n);
    EndAfterChain(t0, CompleteInTurn(t0, n), ms, n);
  }

  /** `CompletionsInTurn` from step 1, in the terms its callers use. */
  lemma InTurnFromStart(t0: State, ms: seq<Option<Mapping>>, j: nat)
    requires InFlight(t0, ms, 1) && j < |ms|
    ensures var t := CompleteInTurn(t0, j);
      && InFlight(t, ms, j + 1) && IsPrefix(t0.log, t.log)
      && t.abortedCallback == t0.abortedCallback && t.executedCallback == t0.executedCallback
      && t.progressCallback == t0.progressCallback
      && Notices(NewEvents(t0, t)) == StepReports(t0.progressCallback, ms, 0, j)
      && ExecutedMappings(NewEvents(t0, t)) == Compact(ms[1..j + 1])
  {
    CompletionsInTurn(t0, ms, 1, j);
    assert 1 + j == j + 1 && 1 - 1 + j == j;
    SameSlice(ms, 1, 1 + j, 1, j + 1);
  }

  /** Equal bounds give equal slices; stated apart so that proofs within the
      resource limit need not equate `s[a..b]` and `s[c..d]` by arithmetic. */
  lemma SameSlice<T>(s: seq<T>, a: nat, b: nat, c: nat, d: nat)
    requires a == c && b == d && a <= b <= |s|
    ensures s[a..b] == s[c..d]
  { }

  /** The stopping completion of a run that has reached step `j + 1` in turn. */
  lemma StopOfChain(t0: State, t: State, r: State, ms: seq<Option<Mapping>>, j: nat)
    requires j < |ms| && InFlight(t, ms, j + 1) && IsPrefix(t0.log, t.log)
    requires t.abortedCallback == t0.abortedCallback && t.progressCallback == t0.progressCallback
    requires Notices(NewEvents(t0, t)) == StepReports(t0.progressCallback, ms, 0, j)
    requires ExecutedMappings(NewEvents(t0, t)) == Compact(ms[1..j + 1])
    requires StopSummary(t, r, ms, j + 1)
    ensures IsPrefix(t0.log, r.log)
    ensures r.aborted && r.queue == []
    ensures Notices(NewEvents(t0, r)) == StepReports(t0.progressCallback, ms, 0, j + 1) + AbortedNotice(t0.abortedCallback)
    ensures ExecutedMappings(NewEvents(t0, r)) == Compact(ms[1..j + 1])
  {
    NewEventsSplit(t0, t, r);
    NoticesAppend(NewEvents(t0, t), NewEvents(t, r));
  }

  /** From step 1 in flight, completing `j` steps in turn and then stopping at step
      `j + 1` reports steps `1 .. j + 1` and then "all aborted", and starts only the
      mappings of steps `2 .. j + 1`. */
  lemma InTurnThenStop(t0: State, ms: seq<Option<Mapping>>, j: nat)
    requires InFlight(t0, ms, 1) && j < |ms|
    ensures CompleteInTurn(t0, j).current.Some?
    ensures var t := CompleteInTurn(t0, j);
            var r := CommandExecutedCallback(t, t.current.value, true);
      && IsPrefix(t0.log, r.log)
      && r.aborted && r.queue == []
      && Notices(NewEvents(t0, r)) == StepReports(t0.progressCallback, ms, 0, j + 1) + AbortedNotice(t0.abortedCallback)
      && ExecutedMappings(NewEvents(t0, r)) == Compact(ms[1..j + 1])
  {
    InTurnFromStart(t0, ms, j);
    StopAfterChain(t0, CompleteInTurn(t0, j), ms, j);
  }

  /** The stopping completion of a state reached from `t0` by steps `1 .. j` in turn. */
  lemma StopAfterChain(t0: State, t: State, ms: seq<Option<Mapping>>, j: nat)
    requires j < |ms| && InFlight(t, ms, j + 1) && IsPrefix(t0.log, t.log)
    requires t.abortedCallback == t0.abortedCallback && t.progressCallback == t0.progressCallback
    requires Notices(NewEvents(t0, t)) == StepReports(t0.progressCallback, ms, 0, j)
    requires ExecutedMappings(NewEvents(t0, t)) == Compact(ms[1..j + 1])
    ensures var r := CommandExecutedCallback(t, t.current.value, true);
      && IsPrefix(t0.log, r.log)
      && r.aborted && r.queue == []
      && Notices(NewEvents(t0, r)) == StepReports(t0.progressCallback, ms, 0, j + 1) + AbortedNotice(t0.abortedCallback)
      && ExecutedMappings(NewEvents(t0, r)) == Compact(ms[1..j + 1])
  {
    StopSummaryHolds(t, ms, j + 1);
    StopOfChain(t0, t, CommandExecutedCallback(t, t.current.value, true), ms, j);
  }

  /** A run over mappings without nulls, each command completing in turn, reports
      every step in order -- step `i` with the type of the `i`-th mapping, as `i`
      out of the total -- then invokes "all executed", and starts every mapping once,
      in order. */
  lemma UninterruptedRun(s: State, ms: seq<Option<Mapping>>, p: Payload)
    requires !s.aborted && NoNulls(ms) && |ms| > 0
    ensures var r := CompleteInTurn(ExecuteAsyncCommands(s, ms, p), |ms|);
      && IsPrefix(s.log, r.log)
      && !r.aborted && r.queue == []
      && Notices(NewEvents(s, r)) == StepReports(s.progressCallback, ms, 0, |ms|) + ExecutedNotice(s.executedCallback)
      && ExecutedMappings(NewEvents(s, r)) == Compact(ms)
  {
    var t0 := ExecuteAsyncCommands(s, ms, p);
    StartInFlight(s, ms, p);
    InTurnToEnd(t0, ms);
    var r := CompleteInTurn(t0, |ms|);
    AfterStart(s, t0, r, ms);
    CompactHead(ms, |ms|);
    assert ms[..|ms|] == ms && ms[1..|ms|] == ms[1..];
  }

  /** When the command of step `j + 1` asks to stop, the run reports steps
      `1 .. j + 1`, invokes "all aborted", and never starts the mappings after
      step `j + 1`. */
  lemma StoppedRun(s: State, ms: seq<Option<Mapping>>, p: Payload, j: nat)
    requires !s.aborted && NoNulls(ms) && j < |ms|
    ensures CompleteInTurn(ExecuteAsyncCommands(s, ms, p), j).current.Some?
    ensures var t := CompleteInTurn(ExecuteAsyncCommands(s, ms, p), j);
            var r := CommandExecutedCallback(t, t.current.value, true);
      && IsPrefix(s.log, r.log)
      && r.aborted && r.queue == []
      && Notices(NewEvents(s, r)) == StepReports(s.progressCallback, ms, 0, j + 1) + AbortedNotice(s.abortedCallback)
      && ExecutedMappings(NewEvents(s, r)) == Compact(ms[..j + 1])
  {
    var t0 := ExecuteAsyncCommands(s, ms, p);
    StartInFlight(s, ms, p);
    InTurnThenStop(t0, ms, j);
    var t := CompleteInTurn(t0, j);
    var r := CommandExecutedCallback(t, t.current.value, true);
    AfterStart(s, t0, r, ms);
    CompactHead(ms, j + 1);
  }

  /** The start of a run, placed before what followed it. */
  lemma AfterStart(s: State, t0: State, r: State, ms: seq<Option<Mapping>>)
    requires |ms| > 0 && ms[0].Some? && IsPrefix(s.log, t0.log) && IsPrefix(t0.log, r.log)
    requires Notices(NewEvents(s, t0)) == [] && ExecutedMappings(NewEvents(s, t0)) == [ms[0].value]
    ensures IsPrefix(s.log, r.log)
    ensures Notices(NewEvents(s, r)) == Notices(NewEvents(t0, r))
    ensures ExecutedMappings(NewEvents(s, r)) == [ms[0].value] + ExecutedMappings(NewEvents(t0, r))
  {
    NewEventsSplit(s, t0, r);
    NoticesAppend(NewEvents(s, t0), NewEvents(t0, r));
  }

  lemma CompactHead(ms: seq<Option<Mapping>>, n: nat)
    requires NoNulls(ms) && 0 < n <= |ms|
    ensures Compact(ms[..n]) == [ms[0].value] + Compact(ms[1..n])
  {
    assert ms[..n][0] == ms[0];
    assert ms[..n][1..] == ms[1..n];
  }

  /** The current command is never cleared: once a run has ended, aborting with
      `abortCurrentCommand` still cancels the last command, which has already
      reported completion and been released. */
  lemma AbortAfterRunCancelsFinishedCommand(s: State, ms: seq<Option<Mapping>>, p: Payload)
    requires !s.aborted && NoNulls(ms) && |ms| > 0
    ensures var r := CompleteInTurn(ExecuteAsyncCommands(s, ms, p), |ms|);
            var a := Abort(r, true);
      && r.current.Some? && Release(r.current.value) in NewEvents(s, r)
      && NewEvents(r, a) == [CancelCurrent(r.current.value)]
  {
    var t0 := ExecuteAsyncCommands(s, ms, p);
    StartInFlight(s, ms, p);
    InTurnToEnd(t0, ms);
    var r := CompleteInTurn(t0, |ms|);
    NewEventsSplit(s, t0, r);
  }
}
