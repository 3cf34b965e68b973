/**
  Properties of whole traces: what holds after any sequence of inputs, whatever
  the order in which commands complete, aborts arrive and callbacks are set.
*/
module ExecutorTraces {
  import opened Wrappers
  import opened ExecutorState
  import opened AsyncCommandExecutor
  import opened ExecutorSteps

  /* ---------------------------------------------------------------------- */
  /* Log views of a concatenation                                           */
  /* ---------------------------------------------------------------------- */

  lemma AbsenceAppend(a: seq<Event>, b: seq<Event>)
    ensures NoneStarted(a + b) <==> NoneStarted(a) && NoneStarted(b)
    ensures NeverAllExecuted(a + b) <==> NeverAllExecuted(a) && NeverAllExecuted(b)
    ensures NoneCancelled(a + b) <==> NoneCancelled(a) && NoneCancelled(b)
    ensures ProgressInRange(a + b) <==> ProgressInRange(a) && ProgressInRange(b)
  {
    var e := a + b;
    forall k | 0 <= k < |b|
      ensures e[|a| + k] == b[k]
    {
    }
    forall k | 0 <= k < |a|
      ensures e[k] == a[k]
    {
    }
  }

  lemma PayloadAppend(a: seq<Event>, b: seq<Event>, p: Option<Payload>)
    requires AllWithPayload(a, p) && AllWithPayload(b, p)
    ensures AllWithPayload(a + b, p)
  {
  }

  /* ---------------------------------------------------------------------- */
  /* The aborted flag                                                       */
  /* ---------------------------------------------------------------------- */

  /** Once raised, the aborted flag stays raised whatever happens next; and it is
      raised only by an abort request or by a completion that asks to stop. */
  lemma {:induction false} AbortedFlagIsMonotonic(s: State, ins: seq<Input>)
    ensures s.aborted ==> Run(s, ins).aborted
    ensures Run(s, ins).aborted ==> s.aborted || exists k :: 0 <= k < |ins| && RaisesAbort(ins[k])
    decreases |ins|
  {
    if ins != [] {
      var t := Step(s, ins[0]);
      AbortedFlagIsMonotonic(t, ins[1..]);
      if Run(s, ins).aborted && !s.aborted && !RaisesAbort(ins[0]) {
        var k :| 0 <= k < |ins[1..]| && RaisesAbort(ins[1..][k]);
        assert RaisesAbort(ins[k + 1]);
      }
    }
  }

  /** After an abort no mapping is ever handed over again and "all executed" is
      never invoked, whatever inputs follow -- a new run included. */
  lemma {:induction false} NothingStartsAfterAbort(s: State, ins: seq<Input>)
    requires s.aborted
    ensures NoneStarted(NewEvents(s, Run(s, ins)))
    ensures NeverAllExecuted(NewEvents(s, Run(s, ins)))
    decreases |ins|
  {
    if ins != [] {
      var t := Step(s, ins[0]);
      var r := Run(s, ins);
      assert r == Run(t, ins[1..]);
      if ins[0].Start? {
        StartStepFacts(s, ins[0].mappings, ins[0].payload);
      } else if ins[0].Completion? {
        CompletionStepFacts(s, ins[0].cmd, ins[0].stop);
      } else {
        QuietStepFacts(s, ins[0]);
      }
      NothingStartsAfterAbort(t, ins[1..]);
      NewEventsSplit(s, t, r);
      AbsenceAppend(NewEvents(s, t), NewEvents(t, r));
    }
  }

  /* ---------------------------------------------------------------------- */
  /* Progress reports                                                       */
  /* ---------------------------------------------------------------------- */

  /** The queue never outgrows the total, so every progress report ever made has
      0 <= current <= total. */
  lemma {:induction false} ProgressStaysInRange(s: State, ins: seq<Input>)
    requires |s.queue| <= s.total
    ensures |Run(s, ins).queue| <= Run(s, ins).total
    ensures ProgressInRange(NewEvents(s, Run(s, ins)))
    decreases |ins|
  {
    if ins != [] {
      var t := Step(s, ins[0]);
      var r := Run(s, ins);
      assert r == Run(t, ins[1..]);
      StepStaysInRange(s, ins[0]);
      ProgressStaysInRange(t, ins[1..]);
      NewEventsSplit(s, t, r);
      AbsenceAppend(NewEvents(s, t), NewEvents(t, r));
    }
  }

  lemma StepStaysInRange(s: State, i: Input)
    requires |s.queue| <= s.total
    ensures |Step(s, i).queue| <= Step(s, i).total
    ensures ProgressInRange(NewEvents(s, Step(s, i)))
  {
    if i.Start? {
      StartStepFacts(s, i.mappings, i.payload);
    } else if i.Completion? {
      CompletionStepFacts(s, i.cmd, i.stop);
    } else {
      QuietStepFacts(s, i);
    }
  }

  /** Within one run (no new run started), the total stays fixed and the reported
      step number never goes backwards: it starts at the number of mappings already
      dequeued and never exceeds the number dequeued at the end. */
  lemma {:induction false} ProgressNeverDecreases(s: State, ins: seq<Input>)
    requires forall k :: 0 <= k < |ins| ==> !ins[k].Start?
    ensures Run(s, ins).total == s.total && |Run(s, ins).queue| <= |s.queue|
    ensures ProgressWithin(NewEvents(s, Run(s, ins)), s.total - |s.queue|,
                           s.total - |Run(s, ins).queue|, s.total)
    ensures ProgressNonDecreasing(NewEvents(s, Run(s, ins)))
    decreases |ins|
  {
    if ins != [] {
      var t := Step(s, ins[0]);
      var r := Run(s, ins);
      assert r == Run(t, ins[1..]);
      var lo := s.total - |s.queue|;
      assert !ins[0].Start?;
      StepKeepsProgress(s, ins[0]);
      ProgressNeverDecreases(t, ins[1..]);
      NewEventsSplit(s, t, r);
      ProgressAppend(NewEvents(s, t), NewEvents(t, r), lo, t.total - |t.queue|, r.total - |r.queue|, s.total);
    }
  }

  lemma StepKeepsProgress(s: State, i: Input)
    requires !i.Start?
    ensures Step(s, i).total == s.total && |Step(s, i).queue| <= |s.queue|
    ensures ProgressWithin(NewEvents(s, Step(s, i)), s.total - |s.queue|, s.total - |s.queue|, s.total)
  {
    if i.Completion? {
      CompletionStepFacts(s, i.cmd, i.stop);
    } else {
      QuietStepFacts(s, i);
    }
  }

  lemma ProgressAppend(a: seq<Event>, b: seq<Event>, lo: int, mid: int, hi: int, n: nat)
    requires lo <= mid <= hi
    requires ProgressWithin(a, lo, lo, n)
    requires ProgressWithin(b, mid, hi, n) && ProgressNonDecreasing(b)
    ensures ProgressWithin(a + b, lo, hi, n) && ProgressNonDecreasing(a + b)
  {
    var e := a + b;
    forall i, j | 0 <= i < j < |e| && e[i].Progress? && e[j].Progress?
      ensures e[i].current <= e[j].current
    {
      if j < |a| {
        assert e[i] == a[i] && e[j] == a[j];
      } else if i < |a| {
        assert e[i] == a[i] && e[j] == b[j - |a|];
      } else {
        assert e[i] == b[i - |a|] && e[j] == b[j - |a|];
      }
    }
    forall k | 0 <= k < |e| && e[k].Progress?
      ensures lo <= e[k].current <= hi && e[k].total == n
    {
      if k < |a| {
        assert e[k] == a[k];
      } else {
        assert e[k] == b[k - |a|];
      }
    }
  }

  /* ---------------------------------------------------------------------- */
  /* Order and at-most-once                                                 */
  /* ---------------------------------------------------------------------- */

  /** Chaining two steps of the order argument. */
  lemma OrderCompose(x1: seq<Mapping>, x2: seq<Mapping>, c0: seq<Mapping>, c1: seq<Mapping>, c2: seq<Mapping>)
    requires IsPrefix(x1 + c1, c0) && IsPrefix(x2 + c2, c1)
    ensures IsPrefix(x1 + x2 + c2, c0)
    ensures x1 + c1 == c0 && x2 + c2 == c1 ==> x1 + x2 + c2 == c0
  {
    PrefixExtend(x1, x2 + c2, c1);
    assert x1 + x2 + c2 == x1 + (x2 + c2);
    PrefixTransitive(x1 + x2 + c2, x1 + c1, c0);
  }

  /** Within one run, the mappings handed over, followed by the non-null mappings
      still queued, are a prefix of the non-null mappings queued at the outset --
      all of them while no abort has happened. So mappings start in queue order,
      none twice and none skipped, each with the run's payload. */
  lemma {:induction false} StartsFollowQueueOrder(s: State, ins: seq<Input>)
    requires forall k :: 0 <= k < |ins| ==> !ins[k].Start?
    ensures var r := Run(s, ins);
      && IsPrefix(ExecutedMappings(NewEvents(s, r)) + Compact(r.queue), Compact(s.queue))
      && (!r.aborted ==> ExecutedMappings(NewEvents(s, r)) + Compact(r.queue) == Compact(s.queue))
      && AllWithPayload(NewEvents(s, r), s.payload)
      && r.payload == s.payload
    decreases |ins|
  {
    if ins != [] {
      var t := Step(s, ins[0]);
      var r := Run(s, ins);
      assert r == Run(t, ins[1..]);
      assert !ins[0].Start?;
      StepKeepsOrder(s, ins[0]);
      StartsFollowQueueOrder(t, ins[1..]);
      AbortedFlagIsMonotonic(t, ins[1..]);
      NewEventsSplit(s, t, r);
      SelectAppend(NewEvents(s, t), NewEvents(t, r), StartedMapping);
      OrderCompose(ExecutedMappings(NewEvents(s, t)), ExecutedMappings(NewEvents(t, r)),
                   Compact(s.queue), Compact(t.queue), Compact(r.queue));
      PayloadAppend(NewEvents(s, t), NewEvents(t, r), s.payload);
    }
  }

  lemma StepKeepsOrder(s: State, i: Input)
    requires !i.Start?
    ensures var r := Step(s, i);
      && IsPrefix(ExecutedMappings(NewEvents(s, r)) + Compact(r.queue), Compact(s.queue))
      && (!r.aborted ==> ExecutedMappings(NewEvents(s, r)) + Compact(r.queue) == Compact(s.queue))
      && AllWithPayload(NewEvents(s, r), s.payload)
      && r.payload == s.payload
      && (s.aborted ==> r.aborted)
  {
    if i.Completion? {
      CompletionStepFacts(s, i.cmd, i.stop);
    } else {
      QuietStepFacts(s, i);
    }
  }

  /** A whole run: started with `mappings` and driven by any inputs that do not start
      another run, the executor hands over a prefix of the non-null mappings, in
      order and each at most once, always with the run's payload; unless aborted,
      what it has handed over plus what is still queued is all of them. */
  lemma RunStartsEachMappingAtMostOnce(s: State, mappings: seq<Option<Mapping>>, p: Payload, ins: seq<Input>)
    requires forall k :: 0 <= k < |ins| ==> !ins[k].Start?
    ensures var r := Run(s, [Start(mappings, p)] + ins);
      && IsPrefix(ExecutedMappings(NewEvents(s, r)), Compact(mappings))
      && (!r.aborted ==> ExecutedMappings(NewEvents(s, r)) + Compact(r.queue) == Compact(mappings))
      && AllWithPayload(NewEvents(s, r), Some(p))
  {
    var all := [Start(mappings, p)] + ins;
    var r0 := Step(s, Start(mappings, p));
    var r := Run(s, all);
    assert all[0] == Start(mappings, p) && all[1..] == ins;
    assert r == Run(r0, ins);
    StartStepFacts(s, mappings, p);
    StartsFollowQueueOrder(r0, ins);
    AbortedFlagIsMonotonic(r0, ins);
    NewEventsSplit(s, r0, r);
    var x1 := ExecutedMappings(NewEvents(s, r0));
    var x2 := ExecutedMappings(NewEvents(r0, r));
    SelectAppend(NewEvents(s, r0), NewEvents(r0, r), StartedMapping);
    OrderCompose(x1, x2, Compact(mappings), Compact(r0.queue), Compact(r.queue));
    PrefixTransitive(x1 + x2, x1 + x2 + Compact(r.queue), Compact(mappings));
    PayloadAppend(NewEvents(s, r0), NewEvents(r0, r), Some(p));
  }

  /* ---------------------------------------------------------------------- */
  /* Callbacks                                                              */
  /* ---------------------------------------------------------------------- */

  /** Every callback invocation in `log` goes to the callback registered in `s`. */
  ghost predicate InvokesRegistered(log: seq<Event>, s: State)
  {
    forall k :: 0 <= k < |log| ==>
      && (log[k].AllAborted? ==> s.abortedCallback == Some(log[k].callback))
      && (log[k].AllExecuted? ==> s.executedCallback == Some(log[k].callback))
      && (log[k].Progress? ==> s.progressCallback == Some(log[k].callback))
  }

  lemma RegisteredAppend(a: seq<Event>, b: seq<Event>, s: State)
    requires InvokesRegistered(a, s) && InvokesRegistered(b, s)
    ensures InvokesRegistered(a + b, s)
  {
    var e := a + b;
    forall k | |a| <= k < |e|
      ensures e[k] == b[k - |a|]
    {
    }
  }

  /** The events of a drain step go to the callbacks registered in `t`. */
  lemma DrainInvokesRegistered(t: State, r: State, s: State)
    requires DrainOutcome(t, r)
    requires t.abortedCallback == s.abortedCallback && t.executedCallback == s.executedCallback
    ensures IsPrefix(t.log, r.log)
    ensures InvokesRegistered(NewEvents(t, r), s)
  {
    if StartedFirst(t, r) {
      StartedFacts(t, r);
      StartedInvokesNothing(t, r, s);
    } else {
      EndedFacts(t, r);
      EndedInvokesRegistered(t, r, s);
    }
  }

  lemma StartedInvokesNothing(t: State, r: State, s: State)
    requires StartedFirst(t, r)
    ensures IsPrefix(t.log, r.log)
    ensures InvokesRegistered(NewEvents(t, r), s)
  {
    var m := Compact(t.queue)[0];
    var e := [Execute(m, t.payload), Detain(Cmd(t.nextSerial, m.commandType))];
    assert r.log == t.log + e;
    assert NewEvents(t, r) == e;
  }

  lemma EndedInvokesRegistered(t: State, r: State, s: State)
    requires Ended(t, r)
    requires t.abortedCallback == s.abortedCallback && t.executedCallback == s.executedCallback
    ensures IsPrefix(t.log, r.log)
    ensures InvokesRegistered(NewEvents(t, r), s)
  {
    var e := if t.aborted then AbortedNotice(t.abortedCallback) else ExecutedNotice(t.executedCallback);
    assert r.log == t.log + e;
    assert NewEvents(t, r) == e;
  }

  lemma CompletionInvokesRegistered(s: State, c: Cmd, stop: bool)
    ensures var r := Step(s, Completion(c, stop));
      && InvokesRegistered(NewEvents(s, r), s)
  {
    var r := Step(s, Completion(c, stop));
    assert r == CommandExecutedCallback(s, c, stop);
    var t := Reported(s, c, stop);
    assert DrainOutcome(t, r);
    DrainInvokesRegistered(t, r, s);
    ReportInvokesRegistered(s, c, stop);
    NewEventsSplit(s, t, r);
    RegisteredAppend(NewEvents(s, t), NewEvents(t, r), s);
  }

  lemma ReportInvokesRegistered(s: State, c: Cmd, stop: bool)
    ensures IsPrefix(s.log, Reported(s, c, stop).log)
    ensures InvokesRegistered(NewEvents(s, Reported(s, c, stop)), s)
  {
    var t := Reported(s, c, stop);
    var head := [Release(c)] + ProgressNotice(s.progressCallback, c.commandType, s.total - |s.queue|, s.total);
    assert t.log == s.log + head;
    assert NewEvents(s, t) == head;
    if s.progressCallback.Some? {
      assert head == [Release(c), Progress(s.progressCallback.value, c.commandType, s.total - |s.queue|, s.total)];
    } else {
      assert head == [Release(c)];
    }
  }

  lemma {:induction false} StepInvokesRegistered(s: State, i: Input)
    requires !IsSetter(i)
    ensures var r := Step(s, i);
      && InvokesRegistered(NewEvents(s, r), s)
      && r.abortedCallback == s.abortedCallback
      && r.executedCallback == s.executedCallback
      && r.progressCallback == s.progressCallback
  {
    var r := Step(s, i);
    if i.Start? {
      var loaded := s.(queue := i.mappings, total := |i.mappings|, payload := Some(i.payload),
                       bindingPresent := false);
      StartStepFacts(s, i.mappings, i.payload);
      DrainInvokesRegistered(loaded, r, s);
    } else if i.Completion? {
      CompletionStepFacts(s, i.cmd, i.stop);
      CompletionInvokesRegistered(s, i.cmd, i.stop);
    } else {
      QuietStepFacts(s, i);
      assert NewEvents(s, r) == [] || NewEvents(s, r) == [NewEvents(s, r)[0]];
    }
  }

  /** While no setter is called, every invocation goes to the callback registered
      at the outset, and a callback that is absent is never invoked. */
  lemma {:induction false} OnlyRegisteredCallbacksAreInvoked(s: State, ins: seq<Input>)
    requires forall k :: 0 <= k < |ins| ==> !IsSetter(ins[k])
    ensures InvokesRegistered(NewEvents(s, Run(s, ins)), s)
    ensures Run(s, ins).abortedCallback == s.abortedCallback
    ensures Run(s, ins).executedCallback == s.executedCallback
    ensures Run(s, ins).progressCallback == s.progressCallback
    decreases |ins|
  {
    if ins != [] {
      var t := Step(s, ins[0]);
      var r := Run(s, ins);
      assert r == Run(t, ins[1..]);
      StepInvokesRegistered(s, ins[0]);
      OnlyRegisteredCallbacksAreInvoked(t, ins[1..]);
      NewEventsSplit(s, t, r);
      RegisteredAppend(NewEvents(s, t), NewEvents(t, r), s);
    }
  }

  /** A setter replaces the previous callback: the next terminal notification of an
      aborted executor goes to the newly set "all aborted" callback, or to nobody
      when it was set to null. */
  lemma AbortedCallbackReplaced(s: State, cb: Option<CallbackId>, mappings: seq<Option<Mapping>>, p: Payload)
    requires s.aborted
    ensures NewEvents(s, Run(s, [SetAborted(cb), Start(mappings, p)])) == AbortedNotice(cb)
  {
    var t := Step(s, SetAborted(cb));
    assert Run(s, [SetAborted(cb), Start(mappings, p)]) == Run(t, [Start(mappings, p)]);
    assert Run(t, [Start(mappings, p)]) == Step(t, Start(mappings, p));
  }

  /** Likewise for "all executed": a run of no non-null mappings on an executor that
      is not aborted notifies exactly the newly set callback and nothing else. */
  lemma ExecutedCallbackReplaced(s: State, cb: Option<CallbackId>, mappings: seq<Option<Mapping>>, p: Payload)
    requires !s.aborted && Compact(mappings) == []
    ensures NewEvents(s, Run(s, [SetExecuted(cb), Start(mappings, p)])) == ExecutedNotice(cb)
  {
    var t := Step(s, SetExecuted(cb));
    assert Run(s, [SetExecuted(cb), Start(mappings, p)]) == Run(t, [Start(mappings, p)]);
    assert Run(t, [Start(mappings, p)]) == Step(t, Start(mappings, p));
  }

  /** Likewise for the progress callback: a completion reports to the newly set one. */
  lemma ProgressCallbackReplaced(s: State, cb: Option<CallbackId>, cmd: Cmd, stop: bool)
    ensures var r := Run(s, [SetProgress(cb), Completion(cmd, stop)]);
            var head := [Release(cmd)] + ProgressNotice(cb, cmd.commandType, s.total - |s.queue|, s.total);
      && IsPrefix(s.log + head, r.log)
  {
    var t := s.(progressCallback := cb);
    var head := [Release(cmd)] + ProgressNotice(cb, cmd.commandType, s.total - |s.queue|, s.total);
    SetThenComplete(s, cb, cmd, stop);
    CompletionKeepsReport(t, cmd, stop);
    SetHead(s, cb, cmd, stop);
    PrefixOfEqual(s.log + head, Reported(t, cmd, stop).log, Run(s, [SetProgress(cb), Completion(cmd, stop)]).log);
  }

  /** After the progress setter, the state a completion hands to its drain step
      has the release and the report to the newly set callback appended. */
  lemma SetHead(s: State, cb: Option<CallbackId>, cmd: Cmd, stop: bool)
    ensures Reported(s.(progressCallback := cb), cmd, stop).log
         == s.log + ([Release(cmd)] + ProgressNotice(cb, cmd.commandType, s.total - |s.queue|, s.total))
  {
  }

  /** Kept apart so that the proof above stays within the resource limit. */
  lemma PrefixOfEqual<T>(a: seq<T>, b: seq<T>, c: seq<T>)
    requires a == b && IsPrefix(b, c)
    ensures IsPrefix(a, c)
  { }

  lemma SetThenComplete(s: State, cb: Option<CallbackId>, cmd: Cmd, stop: bool)
    ensures Run(s, [SetProgress(cb), Completion(cmd, stop)])
         == CommandExecutedCallback(s.(progressCallback := cb), cmd, stop)
  {
    RunPair(s, SetProgress(cb), Completion(cmd, stop));
    ProgressSetterStep(s, SetProgress(cb));
    CompletionStep(s.(progressCallback := cb), Completion(cmd, stop));
  }

  lemma ProgressSetterStep(s: State, i: Input)
    requires i.SetProgress?
    ensures Step(s, i) == s.(progressCallback := i.progressCallback)
  {
  }

  lemma CompletionStep(s: State, i: Input)
    requires i.Completion?
    ensures Step(s, i) == CommandExecutedCallback(s, i.cmd, i.stop)
  {
  }

  lemma RunPair(s: State, a: Input, b: Input)
    ensures Run(s, [a, b]) == Step(Step(s, a), b)
  {
    var t := Step(s, a);
    assert [a, b][1..] == [b];
    assert Run(s, [a, b]) == Run(t, [b]);
    assert [b][1..] == [];
    assert Run(t, [b]) == Run(Step(t, b), []);
  }

  /* ---------------------------------------------------------------------- */
  /* Detain and release                                                     */
  /* ---------------------------------------------------------------------- */

  /** A command is awaiting its completion. */
  predicate Pending(s: State)
  {
    s.detained != multiset{}
  }

  /** An environment that follows the executor's protocol: only the command awaiting
      completion reports it, and a new run starts only when none is awaited. */
  predicate Obedient(s: State, i: Input)
  {
    match i
    case Completion(c, _) => Pending(s) && s.current == Some(c)
    case Start(_, _) => !Pending(s)
    case _ => true
  }

  ghost predicate ObedientRun(s: State, ins: seq<Input>)
    decreases |ins|
  {
    ins == [] || (Obedient(s, ins[0]) && ObedientRun(Step(s, ins[0]), ins[1..]))
  }

  /** The retention ledger: everything detained so far was either released or is
      still held, at most the current command is held, no command was detained
      twice, every command built so far has a serial below `nextSerial`, and the
      completion binding exists only while a command is awaited. */
  ghost predicate Tracked(s: State)
  {
    && DetainedBag(s.log) == ReleasedBag(s.log) + s.detained
    && (s.detained == multiset{} || (s.current.Some? && s.detained == multiset{s.current.value}))
    && (s.current.Some? ==> s.current.value.serial < s.nextSerial)
    && (forall c | c in DetainedBag(s.log) :: c.serial < s.nextSerial)
    && (forall c :: DetainedBag(s.log)[c] <= 1)
    && (s.bindingPresent ==> Pending(s))
  }

  lemma NewExecutorIsTracked(h: Option<HandlerId>)
    ensures Tracked(NewExecutor(h))
  {
  }

  /** A drain step from a state holding nothing keeps the ledger: the command it
      may start is fresh, is detained once and becomes current. */
  lemma DrainKeepsTracked(t: State, r: State)
    requires Tracked(t) && t.detained == multiset{} && !t.bindingPresent
    requires DrainOutcome(t, r)
    ensures Tracked(r)
  {
    if StartedFirst(t, r) {
      StartedFacts(t, r);
      StartedKeepsTracked(t, r);
    } else {
      EndedFacts(t, r);
    }
  }

  lemma StartedKeepsTracked(t: State, r: State)
    requires Tracked(t) && t.detained == multiset{}
    requires StartedFirst(t, r)
    requires DetainedBag(r.log) == DetainedBag(t.log) + (r.detained - t.detained)
    requires ReleasedBag(r.log) == ReleasedBag(t.log)
    ensures Tracked(r)
  {
    var c := Cmd(t.nextSerial, Compact(t.queue)[0].commandType);
    assert r.current == Some(c) && r.nextSerial == t.nextSerial + 1;
    assert r.detained == multiset{c} && r.bindingPresent;
    FreshCommandTracked(t, r, c);
  }

  /** The ledger after detaining one command with a serial never used before. */
  lemma FreshCommandTracked(t: State, r: State, c: Cmd)
    requires Tracked(t) && t.detained == multiset{}
    requires c.serial == t.nextSerial && r.nextSerial == t.nextSerial + 1
    requires r.current == Some(c) && r.detained == multiset{c}
    requires DetainedBag(r.log) == DetainedBag(t.log) + multiset{c}
    requires ReleasedBag(r.log) == ReleasedBag(t.log)
    ensures Tracked(r)
  {
    assert c !in DetainedBag(t.log);
    forall x | x in DetainedBag(r.log)
      ensures x.serial < r.nextSerial
    {
      if x != c {
        assert x in DetainedBag(t.log);
      }
    }
    forall x
      ensures DetainedBag(r.log)[x] <= 1
    {
      if x == c {
        assert DetainedBag(t.log)[x] == 0;
      }
    }
  }

  lemma TrackedAfterStart(s: State, ms: seq<Option<Mapping>>, p: Payload)
    requires Tracked(s) && !Pending(s)
    ensures Tracked(Step(s, Start(ms, p)))
  {
    var loaded := s.(queue := ms, total := |ms|, payload := Some(p), bindingPresent := false);
    StartStepFacts(s, ms, p);
    DrainKeepsTracked(loaded, Step(s, Start(ms, p)));
  }

  lemma ReportedIsTracked(s: State, c: Cmd, stop: bool)
    requires Tracked(s) && s.detained == multiset{c}
    ensures Tracked(Reported(s, c, stop))
    ensures Reported(s, c, stop).detained == multiset{}
  {
    ReportedFacts(s, c, stop);
  }

  lemma TrackedAfterCompletion(s: State, c: Cmd, stop: bool)
    requires Tracked(s) && Pending(s) && s.current == Some(c)
    ensures Tracked(Step(s, Completion(c, stop)))
  {
    var r := Step(s, Completion(c, stop));
    var t := Reported(s, c, stop);
    assert r == CommandExecutedCallback(s, c, stop);
    assert s.detained == multiset{c};
    ReportedIsTracked(s, c, stop);
    assert DrainOutcome(t, r);
    DrainKeepsTracked(t, r);
  }

  lemma {:induction false} StepKeepsTracked(s: State, i: Input)
    requires Tracked(s) && Obedient(s, i)
    ensures Tracked(Step(s, i))
  {
    if i.Start? {
      TrackedAfterStart(s, i.mappings, i.payload);
    } else if i.Completion? {
      TrackedAfterCompletion(s, i.cmd, i.stop);
    } else {
      QuietStepFacts(s, i);
    }
  }

  /** Under an obedient environment the ledger holds after any number of steps: at
      most one command is held, and whatever was detained was released or is still
      held -- never released twice, never detained twice. */
  lemma {:induction false} ObedientRunStaysTracked(s: State, ins: seq<Input>)
    requires Tracked(s) && ObedientRun(s, ins)
    ensures Tracked(Run(s, ins))
    decreases |ins|
  {
    if ins != [] {
      StepKeepsTracked(s, ins[0]);
      ObedientRunStaysTracked(Step(s, ins[0]), ins[1..]);
    }
  }

  /** From a new executor and with an obedient environment, once no command is
      awaited every detained command has been released exactly once. */
  lemma DetainReleaseBalance(h: Option<HandlerId>, ins: seq<Input>)
    requires ObedientRun(NewExecutor(h), ins)
    ensures var r := Run(NewExecutor(h), ins);
      && |r.detained| <= 1
      && (!Pending(r) ==> DetainedBag(r.log) == ReleasedBag(r.log))
      && (forall c :: DetainedBag(r.log)[c] <= 1)
  {
    NewExecutorIsTracked(h);
    ObedientRunStaysTracked(NewExecutor(h), ins);
  }
}
