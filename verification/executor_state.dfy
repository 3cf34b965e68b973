/**
  The data the asynchronous command executor works on: command mappings, the
  command instances built from them, the events its collaborators and callbacks
  observe, and the executor's own state record. It also defines the views of an
  event log that the contracts of the other modules are stated in.
*/
module ExecutorState {
  import opened Wrappers

  /** The runtime type of a command, as reported by `command.GetType()`. */
  type CommandType = nat
  /** Identity of a delegate handed to one of the callback setters. */
  type CallbackId = nat
  /** Identity of the result handler given to the executor's constructor. */
  type HandlerId = nat
  /** Identity of the shared payload object of one run. */
  type Payload = nat
  /** An opaque object returned by a command's action. */
  type ResultValue = nat

  /** A command mapping: which type of command to build for one step of a sequence.
      `id` tells apart two mapping objects of the same command type. */
  datatype Mapping = Mapping(id: nat, commandType: CommandType)

  /** A command instance; the single-command executor builds a fresh one per mapping,
      and `serial` is its identity. */
  datatype Cmd = Cmd(serial: nat, commandType: CommandType)

  /** What the executor does that is visible from outside it. */
  datatype Event =
      /** a mapping handed to the single-command executor, with the run's payload */
    | Execute(mapping: Mapping, payload: Option<Payload>)
      /** the context retains a command (`IContext.Detain`) */
    | Detain(cmd: Cmd)
      /** the context lets a command go (`IContext.Release`) */
    | Release(cmd: Cmd)
      /** the current command's own `Abort()` is invoked */
    | CancelCurrent(cmd: Cmd)
      /** the "one command executed" callback, with (type, current, total) */
    | Progress(callback: CallbackId, commandType: CommandType, current: int, total: nat)
      /** the "all commands aborted" callback */
    | AllAborted(callback: CallbackId)
      /** the "all commands executed" callback */
    | AllExecuted(callback: CallbackId)
      /** the constructor's result handler receives (result, command, mapping) */
    | ResultRelayed(handler: HandlerId, result: Option<ResultValue>, cmd: Cmd, mapping: Mapping)

  /** The executor's fields. `bindingPresent` stands for the named completion-callback
      binding in the injector; `detained` for what this executor holds detained in the
      context; `nextSerial` is the identity the next command instance will get. */
  datatype State = State(
    queue: seq<Option<Mapping>>,
    total: nat,
    payload: Option<Payload>,
    aborted: bool,
    current: Option<Cmd>,
    detained: multiset<Cmd>,
    bindingPresent: bool,
    abortedCallback: Option<CallbackId>,
    executedCallback: Option<CallbackId>,
    progressCallback: Option<CallbackId>,
    resultHandler: Option<HandlerId>,
    nextSerial: nat,
    log: seq<Event>)

  /* ---------------------------------------------------------------------- */
  /* Callback invocations                                                   */
  /* ---------------------------------------------------------------------- */

  /** Invoking the optional "all aborted" callback: an absent callback is not called. */
  function AbortedNotice(cb: Option<CallbackId>): seq<Event>
  {
    match cb
    case Some(id) => [AllAborted(id)]
    case None => []
  }

  /** Invoking the optional "all executed" callback. */
  function ExecutedNotice(cb: Option<CallbackId>): seq<Event>
  {
    match cb
    case Some(id) => [AllExecuted(id)]
    case None => []
  }

  /** Invoking the optional per-step progress callback. */
  function ProgressNotice(cb: Option<CallbackId>, t: CommandType, current: int, total: nat): seq<Event>
  {
    match cb
    case Some(id) => [Progress(id, t, current, total)]
    case None => []
  }

  /* ---------------------------------------------------------------------- */
  /* Queues                                                                 */
  /* ---------------------------------------------------------------------- */

  /** The mappings of a queue that would actually be executed: the non-null ones, in order. */
  function Compact(q: seq<Option<Mapping>>): (ms: seq<Mapping>)
    ensures |ms| <= |q|
  {
    if q == [] then []
    else (if q[0].Some? then [q[0].value] else []) + Compact(q[1..])
  }

  predicate NoNulls(q: seq<Option<Mapping>>)
  {
    forall k :: 0 <= k < |q| ==> q[k].Some?
  }

  /* ---------------------------------------------------------------------- */
  /* Sequence relations                                                     */
  /* ---------------------------------------------------------------------- */

  predicate IsPrefix<T(==)>(a: seq<T>, b: seq<T>)
  {
    |a| <= |b| && b[..|a|] == a
  }

  predicate IsSuffix<T(==)>(a: seq<T>, b: seq<T>)
  {
    |a| <= |b| && b[|b| - |a|..] == a
  }

  lemma PrefixTransitive<T>(a: seq<T>, b: seq<T>, c: seq<T>)
    requires IsPrefix(a, b) && IsPrefix(b, c)
    ensures IsPrefix(a, c)
  {
    assert c[..|a|] == c[..|b|][..|a|];
  }

  /** The events a transition from `s` to `r` appended to the log. */
  function NewEvents(s: State, r: State): seq<Event>
    requires IsPrefix(s.log, r.log)
  {
    r.log[|s.log|..]
  }

  /* ---------------------------------------------------------------------- */
  /* Views of an event log                                                  */
  /* ---------------------------------------------------------------------- */

  /** The elements `f` picks out of `xs`, in order. */
  function Select<T, U>(xs: seq<T>, f: T -> Option<U>): (ys: seq<U>)
    ensures |ys| <= |xs|
  {
    if xs == [] then []
    else
      var rest := Select(xs[1..], f);
      match f(xs[0])
      case Some(y) => [y] + rest
      case None => rest
  }

  lemma {:induction false} SelectAppend<T, U>(a: seq<T>, b: seq<T>, f: T -> Option<U>)
    ensures Select(a + b, f) == Select(a, f) + Select(b, f)
  {
    if a == [] {
      assert a + b == b;
    } else {
      assert (a + b)[0] == a[0];
      assert (a + b)[1..] == a[1..] + b;
      SelectAppend(a[1..], b, f);
    }
  }

  function StartedMapping(e: Event): Option<Mapping>
  {
    if e.Execute? then Some(e.mapping) else None
  }

  function DetainedCommand(e: Event): Option<Cmd>
  {
    if e.Detain? then Some(e.cmd) else None
  }

  function ReleasedCommand(e: Event): Option<Cmd>
  {
    if e.Release? then Some(e.cmd) else None
  }

  /** The callback invocations (progress and the two terminal callbacks). */
  function CallbackInvocation(e: Event): Option<Event>
  {
    if e.Progress? || e.AllAborted? || e.AllExecuted? then Some(e) else None
  }

  /** The mappings handed to the single-command executor, in order. */
  function ExecutedMappings(log: seq<Event>): seq<Mapping>
  {
    Select(log, StartedMapping)
  }

  /** The callbacks invoked, in order. */
  function Notices(log: seq<Event>): seq<Event>
  {
    Select(log, CallbackInvocation)
  }

  /** Everything ever detained, counted with multiplicity. */
  function DetainedBag(log: seq<Event>): multiset<Cmd>
  {
    multiset(Select(log, DetainedCommand))
  }

  /** Everything ever released, counted with multiplicity. */
  function ReleasedBag(log: seq<Event>): multiset<Cmd>
  {
    multiset(Select(log, ReleasedCommand))
  }

  predicate NoneStarted(log: seq<Event>)
  {
    forall k :: 0 <= k < |log| ==> !log[k].Execute?
  }

  predicate NoneCancelled(log: seq<Event>)
  {
    forall k :: 0 <= k < |log| ==> !log[k].CancelCurrent?
  }

  predicate NeverAllExecuted(log: seq<Event>)
  {
    forall k :: 0 <= k < |log| ==> !log[k].AllExecuted?
  }

  predicate NoneReported(log: seq<Event>)
  {
    forall k :: 0 <= k < |log| ==> !log[k].Progress?
  }

  /** Every mapping handed over in `log` went with payload `p`. */
  predicate AllWithPayload(log: seq<Event>, p: Option<Payload>)
  {
    forall k :: 0 <= k < |log| && log[k].Execute? ==> log[k].payload == p
  }

  /** Every progress report in `log` has its step number between 0 and its total. */
  predicate ProgressInRange(log: seq<Event>)
  {
    forall k :: 0 <= k < |log| && log[k].Progress? ==> 0 <= log[k].current <= log[k].total
  }

  /** The progress reports in `log` never go backwards. */
  predicate ProgressNonDecreasing(log: seq<Event>)
  {
    forall i, j :: 0 <= i < j < |log| && log[i].Progress? && log[j].Progress? ==>
      log[i].current <= log[j].current
  }

  /** Every progress report in `log` lies in `lo..hi` and has total `n`. */
  predicate ProgressWithin(log: seq<Event>, lo: int, hi: int, n: nat)
  {
    forall k :: 0 <= k < |log| && log[k].Progress? ==>
      lo <= log[k].current <= hi && log[k].total == n
  }
}
