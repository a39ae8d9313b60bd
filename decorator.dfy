/** `timeout_decorator(timeout, callback, custom_error)`: what a decorated function does once the
    race between the work and the deadline has been decided. Who won the race is an input. */
module Decorator {
  import opened Values
  import opened Trace

  /** Which wrapper runs the work. */
  datatype Kind = Sync | Async

  /** The decorated function as the wrapper sees it: `func.__name__` and
      `asyncio.iscoroutinefunction(func)`. A callable without `__name__` is not modelled. */
  datatype Func = Func(name: string, isCoroutine: bool)

  /** The arguments of one call, `*args` and `**kwargs`. */
  datatype Call = Call(args: seq<Value>, kwargs: map<string, Value>)

  /** What the user's callback does when it is called: it returns, or it raises an error. */
  datatype CallbackBehaviour = Completes | Fails(error: Error)

  /** The decoration's options: the callback (absent when `callback` is None or otherwise falsy,
      lines 52/77) and the class to raise on timeout (absent when `custom_error` is None or
      otherwise falsy, lines 54/79). */
  datatype Config = Config(callback: Option<CallbackBehaviour>, customError: Option<ErrorClass>)

  /** How the work ended, had it been waited for. */
  datatype WorkResult = Returned(value: Value) | Raised(error: Error)

  /** Who won the race: the work, with its result, or the deadline. */
  datatype Race = Finished(result: WorkResult) | DeadlineFirst

  /** What the caller of the decorated function gets back: the sync wrapper's outcome directly,
      or a task whose effects happen when the event loop runs it and whose end is seen when it
      is awaited. */
  datatype Invocation = Direct(trace: seq<Effect>) | Task(trace: seq<Effect>)

  predicate CallbackFails(cfg: Config) {
    cfg.callback.Some? && cfg.callback.value.Fails?
  }

  function KindOf(f: Func): Kind {
    if f.isCoroutine then Async else Sync
  }

  function KindName(k: Kind): string {
    match k
    case Sync => "Sync"
    case Async => "Async"
  }

  /** The text of the timeout warning and of the custom error. */
  function TimeoutMessage(k: Kind, name: string): string {
    KindName(k) + " function " + name + " timed out."
  }

  /** The text of the error log line for an error raised by the work. */
  function ErrorMessage(k: Kind, name: string, e: Error): string {
    KindName(k) + " function " + name + " raised an exception: " + e.message
  }

  /** The value or error a timed-out call ends with, once the callback has returned. */
  function TimeoutEnd(k: Kind, f: Func, cfg: Config): Effect {
    match cfg.customError
    case Some(c) => Raise(Construct(c, TimeoutMessage(k, f.name)))
    case None => Return(NoneValue)
  }

  /** The timeout branch: warn, call the callback if there is one (its error propagates), then
      raise the custom error or return None. */
  function OnTimeout(k: Kind, f: Func, call: Call, cfg: Config): seq<Effect> {
    var hook := CallCallback(f.name, call.args, call.kwargs);
    [LogWarning(TimeoutMessage(k, f.name))] +
    match cfg.callback
    case None => [TimeoutEnd(k, f, cfg)]
    case Some(Completes) => [hook, TimeoutEnd(k, f, cfg)]
    case Some(Fails(e)) => [hook, Raise(e)]
  }

  /** The error branch: log the error, then re-raise it unchanged. */
  function Reraise(k: Kind, f: Func, e: Error): seq<Effect> {
    [LogError(ErrorMessage(k, f.name, e)), Raise(e)]
  }

  /** `async_wrapper`: every asyncio.TimeoutError that escapes `wait_for` takes the timeout
      branch, whether the deadline or the work raised it; other Exceptions are logged and
      re-raised; errors outside Exception pass through both clauses. */
  function AsyncOutcome(f: Func, call: Call, cfg: Config, race: Race): seq<Effect> {
    match race
    case DeadlineFirst => OnTimeout(Async, f, call, cfg)
    case Finished(Returned(v)) => [Return(v)]
    case Finished(Raised(e)) =>
      if IsTimeoutType(e) then OnTimeout(Async, f, call, cfg)
      else if IsException(e) then Reraise(Async, f, e)
      else [Raise(e)]
  }

  /** `sync_wrapper`: only the deadline takes the timeout branch, since `target` captures every
      Exception the work raises; a captured error is logged and re-raised; an error outside
      Exception escapes `target` and `future.result` raises it. */
  function SyncOutcome(f: Func, call: Call, cfg: Config, race: Race): seq<Effect> {
    match race
    case DeadlineFirst => OnTimeout(Sync, f, call, cfg)
    case Finished(Returned(v)) => [Return(v)]
    case Finished(Raised(e)) =>
      if IsException(e) then Reraise(Sync, f, e)
      else [Raise(e)]
  }

  /** `sync_wrapper` with the slot test as written, `if exception[0]:`, a truth test: a captured
      error whose truth test fails is not re-raised and `result[0]`, still None, is returned. */
  function SyncOutcomeAsWritten(f: Func, call: Call, cfg: Config, race: Race): seq<Effect> {
    match race
    case DeadlineFirst => OnTimeout(Sync, f, call, cfg)
    case Finished(Returned(v)) => [Return(v)]
    case Finished(Raised(e)) =>
      if !IsException(e) then [Raise(e)]
      else if e.truthy then Reraise(Sync, f, e)
      else [Return(NoneValue)]
  }

  /** The outcome of a call made through the wrapper of kind k. */
  function Outcome(k: Kind, f: Func, call: Call, cfg: Config, race: Race): seq<Effect> {
    match k
    case Sync => SyncOutcome(f, call, cfg, race)
    case Async => AsyncOutcome(f, call, cfg, race)
  }

  /** The one-element lists `result` and `exception` that `sync_wrapper` shares with `target`. */
  class Slots {
    var result: Value
    var exception: Option<Error>

    constructor ()
      ensures result == NoneValue && exception == None
    {
      result := NoneValue;
      exception := None;
    }

    /** `target`, run on the worker: a value goes to `result`, an Exception to `exception`,
        and only one slot is written; an error outside Exception is not caught and is handed
        back as `escaped` for `future.result` to raise, with neither slot written. */
    method Target(w: WorkResult) returns (escaped: Option<Error>)
      modifies this
      ensures w.Returned? ==> result == w.value && exception == old(exception) && escaped == None
      ensures w.Raised? && IsException(w.error) ==>
                exception == Some(w.error) && result == old(result) && escaped == None
      ensures w.Raised? && !IsException(w.error) ==>
                exception == old(exception) && result == old(result) && escaped == Some(w.error)
    {
      escaped := None;
      match w {
        case Returned(v) =>
          result := v;
        case Raised(e) =>
          if IsException(e) {
            exception := Some(e);
          } else {
            escaped := Some(e);
          }
      }
    }
  }

  /** `sync_wrapper`: fresh slots, the worker's `target` when the work wins, then the decision
      after the wait. */
  method SyncWrapper(f: Func, call: Call, cfg: Config, race: Race) returns (t: seq<Effect>)
    ensures t == SyncOutcome(f, call, cfg, race)
  {
    var slots := new Slots();
    var escaped: Option<Error> := None;
    if race.Finished? {
      escaped := slots.Target(race.result);
    }
    if escaped.Some? {
      t := [Raise(escaped.value)];
    } else if race.DeadlineFirst? {
      t := OnTimeout(Sync, f, call, cfg);
    } else if slots.exception.Some? {  // the slot holds an error, whatever its truth value
      t := Reraise(Sync, f, slots.exception.value);
    } else {
      t := [Return(slots.result)];
    }
  }

  /** `sync_wrapper` with the post-wait test as written, `if exception[0]:`: a captured error is
      re-raised only when its truth test succeeds. */
  method SyncWrapperAsWritten(f: Func, call: Call, cfg: Config, race: Race) returns (t: seq<Effect>)
    ensures t == SyncOutcomeAsWritten(f, call, cfg, race)
  {
    var slots := new Slots();
    var escaped: Option<Error> := None;
    if race.Finished? {
      escaped := slots.Target(race.result);
    }
    if escaped.Some? {
      t := [Raise(escaped.value)];
    } else if race.DeadlineFirst? {
      t := OnTimeout(Sync, f, call, cfg);
    } else if slots.exception.Some? && slots.exception.value.truthy {
      t := Reraise(Sync, f, slots.exception.value);
    } else {
      t := [Return(slots.result)];
    }
  }

  /** `wrapper`: a coroutine function gets a task running `async_wrapper`; any other function
      runs `sync_wrapper` at once. */
  method Wrapper(f: Func, call: Call, cfg: Config, race: Race) returns (r: Invocation)
    ensures r.Task? <==> f.isCoroutine
    ensures r.trace == Outcome(KindOf(f), f, call, cfg, race)
  {
    if f.isCoroutine {
      r := Task(AsyncOutcome(f, call, cfg, race));
    } else {
      var t := SyncWrapper(f, call, cfg, race);
      r := Direct(t);
    }
  }
}
