# timeout_decorator, modelled in Dafny

`timeout_decorator(timeout, callback=None, custom_error=None)` wraps a function so that a call
stops waiting for the work's result after `timeout` seconds. A timed-out sync call still
returns or raises only once its worker thread has finished (see "## Left out"). A coroutine function runs under asyncio's
`wait_for`; any other function runs on a one-worker thread pool and the caller waits on its
future. This model covers what happens once that race is decided:

- a value of the work is returned as it is;
- an error of the work is logged at error level and re-raised unchanged, with two exceptions:
  on the async path an `asyncio.TimeoutError` raised by the work takes the timeout branch
  (`AsyncTimeoutErrorIsTimeout`), and an error outside `Exception` is raised without a log
  (`BaseErrorEscapes`);
- a timeout logs a warning, calls the callback if there is one, and then raises
  `custom_error("<Sync|Async> function <name> timed out.")` or returns `None`.

Who won the race is an input (`Race = Finished(WorkResult) | DeadlineFirst`). The callback comes
in as a `CallbackBehaviour`: it returns, or it raises a given error. A call's observable
behaviour is an effect trace: `LogWarning`, `LogError` and `CallCallback` entries, ending in
exactly one `Return` or `Raise`.

Files:

- `values.dfy` (module `Values`): Python values and exceptions. An exception's class has a
  category that says which `except` clause catches it: `asyncio.TimeoutError`, another
  `Exception`, or only `BaseException`.
- `trace.dfy` (module `Trace`): effects, counting effects by kind, and `Completed`. A trace is
  completed when its last effect is its only `Return` or `Raise`.
- `decorator.dfy` (module `Decorator`): the decorator's logic,
  - the pure branches: `OnTimeout`, `Reraise`, `AsyncOutcome`, `SyncOutcome` (the corrected
    slot test), `SyncOutcomeAsWritten` (line 83's truth test), and `Outcome`, which picks the
    async or the sync outcome by kind;
  - the class `Slots`, which holds the one-element lists `result` and `exception`, with the
    method `Target`;
  - the methods `SyncWrapper`, `SyncWrapperAsWritten` and `Wrapper`. `SyncWrapper` is proved
    equal to `SyncOutcome`, and `SyncWrapperAsWritten` to `SyncOutcomeAsWritten`.
- `properties.dfy` (module `Properties`): the lemmas about the promised behaviour.
- `scenarios.dfy` (module `Scenarios`): the repository's tests, each stated as the outcome the
  model gives.

Behaviour of the code worth noting:

- No check makes `timeout` positive; a non-positive value goes to the race as it is.
- The timeout message is `"<Sync|Async> function <name> timed out."`.
- The `None` a timeout returns is the same value a work returning `None` gives
  (`NoneSentinelIsAmbiguous`).
- An error that derives only from `BaseException` is not logged. Neither wrapper's
  `except Exception` catches it (`BaseErrorEscapes`).
- The module's own `TimeoutError` class (lines 26-28) is never raised. The timeout branches
  catch `asyncio.TimeoutError` and `concurrent.futures.TimeoutError`.

## Model

| member | source | states |
|---|---|---|
| `Decorator.Wrapper` | src/timeout_decorator/decorator.py:41-45 | A coroutine function gets a task and any other function a direct result; the outcome is the async or the sync wrapper's, chosen by that test alone |
| `Decorator.SyncWrapper` | src/timeout_decorator/decorator.py:61-86 | Run with fresh slots, the worker's capture and the post-wait test (corrected to "the slot holds an error"), the sync wrapper yields exactly the trace `SyncOutcome` specifies |
| `Decorator.SyncWrapperAsWritten` | src/timeout_decorator/decorator.py:61-86 | The same steps with line 83's truth test on the captured error yield exactly the trace `SyncOutcomeAsWritten` specifies |
| `Decorator.Slots.constructor` | src/timeout_decorator/decorator.py:62-63 | Both slots start out as None |
| `Decorator.Slots.Target` | src/timeout_decorator/decorator.py:65-69 | A returned value is written to `result` only. An `Exception` is written to `exception` only. An error outside `Exception` writes neither slot and is handed back for `future.result` to raise |
| `Properties.OnTimeoutCounts` | src/timeout_decorator/decorator.py:50-56 | The timeout branch holds one warning, no error log, one terminal effect, and one callback call exactly when a callback is set |
| `Properties.TimeoutOrdering` | src/timeout_decorator/decorator.py:50-81 | On the deadline the trace is: the warning naming kind and function, then (if set) the callback with the function's name and the original args and kwargs, then the final return or raise |
| `Properties.CustomErrorOnTimeout` | src/timeout_decorator/decorator.py:54-80 | With `custom_error` set, a timeout never returns. Unless the callback fails, it raises `custom_error` built with "<Sync/Async> function <name> timed out." |
| `Properties.NoneOnTimeout` | src/timeout_decorator/decorator.py:52-81 | Without `custom_error` and with a callback that returns, a timeout returns None. The callback is called iff it is set |
| `Properties.CallbackFailurePropagates` | src/timeout_decorator/decorator.py:52-80 | A failing callback's error is what the call raises, right after the callback call. The trace is the same whether `custom_error` is set or not |
| `Properties.ValuePassThrough` | src/timeout_decorator/decorator.py:49-86 | When the work returns v first, the trace is exactly "return v": no log, no callback, no custom error |
| `Properties.ErrorPassThrough` | src/timeout_decorator/decorator.py:57-85 | An `Exception` of the work that no timeout clause catches is logged once at error level and re-raised as the same error. No warning and no callback |
| `Properties.SyncErrorPassThrough` | src/timeout_decorator/decorator.py:65-85 | On the sync path every `Exception` of the work, even a timeout-typed one, is logged and re-raised; it never reaches the timeout branch |
| `Properties.AsyncTimeoutErrorIsTimeout` | src/timeout_decorator/decorator.py:49-50 | On the async path an `asyncio.TimeoutError` raised by the work gives exactly the deadline's trace |
| `Properties.BaseErrorEscapes` | src/timeout_decorator/decorator.py:57-69 | An error outside `Exception` leaves either wrapper unlogged and unchanged |
| `Properties.FinishedIgnoresConfig` | src/timeout_decorator/decorator.py:47-86 | If the work wins the race and no timeout clause catches its result, `callback` and `custom_error` do not affect the trace |
| `Properties.EffectCounts` | src/timeout_decorator/decorator.py:47-86 | Every call ends exactly once: its last effect is its only Return or Raise. The call logs one warning iff it takes the timeout branch, calls the callback once iff it timed out and a callback is set, and logs one error iff it re-raises a work error |
| `Properties.NoneSentinelIsAmbiguous` | src/timeout_decorator/decorator.py:56-86 | Without `custom_error`, a timed-out call ends with the same return as a work that returns None |
| `Properties.FalsyErrorSwallowed` | src/timeout_decorator/decorator.py:83-86 | As written, a captured error whose truth test fails is not raised and the call returns None |
| `Properties.AsWrittenAgreesOnTruthyErrors` | src/timeout_decorator/decorator.py:83-86 | The slot test as written and the corrected one differ only on errors whose truth test fails |
| `Scenarios.SyncTimeoutMessage` | src/timeout_decorator/decorator.py:76 | The timeout text of the tests' sync function |
| `Scenarios.AsyncTimeoutMessage` | src/timeout_decorator/decorator.py:51 | The timeout text of the tests' async function |
| `Scenarios.SyncTimeoutReturnsNone` | tests/test_timeout_decorator.py:9-15 | A timed-out sync call logs the warning and returns None |
| `Scenarios.SyncSuccessReturnsValue` | tests/test_timeout_decorator.py:17-23 | A sync call that finishes in time returns its value |
| `Scenarios.AsyncTimeoutReturnsNone` | tests/test_timeout_decorator.py:25-32 | A timed-out async call logs the warning and returns None |
| `Scenarios.AsyncSuccessReturnsValue` | tests/test_timeout_decorator.py:34-41 | An async call that finishes in time returns its value |
| `Scenarios.SyncTimeoutCallsCallback` | tests/test_timeout_decorator.py:43-56 | A timed-out sync call with a callback calls it with the function's name, then returns None |
| `Scenarios.SyncTimeoutRaisesCustomError` | tests/test_timeout_decorator.py:58-68 | A timed-out sync call with `custom_error` raises it |
| `Scenarios.AsyncTimeoutRaisesCustomError` | tests/test_timeout_decorator.py:70-81 | A timed-out async call with `custom_error` raises it |
| `Scenarios.SyncErrorPropagates` | tests/test_timeout_decorator.py:83-89 | `ValueError("Test error")` from sync work is raised unchanged |
| `Scenarios.AsyncErrorPropagates` | tests/test_timeout_decorator.py:91-98 | `ValueError("Test error")` from async work is raised unchanged |

## Left out

- Decorator.SyncWrapper: re-raises every captured `Exception`, where line 83 as written
  (`if exception[0]:`) lets one whose truth test fails go and returns None. This is the corrected
  half of the finding below; `Decorator.SyncWrapperAsWritten` keeps the test as written.
- `func` is taken to have a `__name__` (`Func.name`). For a callable without one, such as a
  `functools.partial` object, lines 51/76 raise AttributeError in place of the warning, the
  callback and the custom error, and lines 58/84 raise it in place of the re-raise. The model
  does not capture these outcomes.

- The race itself is an input. This covers `asyncio.wait_for`, `ThreadPoolExecutor.submit`,
  `future.result(timeout=...)` and the timing they enforce, because they are concurrent library
  code. The `timeout` value only feeds the race, so it does not appear.
- The model leaves out that `asyncio.create_task` needs a running event loop. It also leaves out
  the cancellation of the inner task by `wait_for`, and the executor's `with` block waiting for
  the worker thread on exit. These are scheduler and thread behaviour.
- Logger setup with colorlog (lines 9-24) is I/O configuration. Log calls appear only as trace
  entries.
- `functools.wraps` metadata copying (line 40) is library code.
- Exception chaining is not modelled: the custom error raised inside the `except` block gets
  the timeout error as its `__context__`.
- An exception raised while `custom_error(...)` is built is not modelled; the constructor is
  taken to succeed.
- The callback's own side effects are external code. Only its call, with its arguments, and
  whether it raises are recorded.
- `str(e)` in the error log line is modelled as the error's message.
- `run_tests.py` and `setup.py` are test tooling and packaging, outside the decorator.

## Findings

| source | as written | input that shows it | evidently intended | confidence | as-written member | corrected member |
|---|---|---|---|---|---|---|
| src/timeout_decorator/decorator.py:83 | `if exception[0]:` tests the captured error's truth value | the work raises an `Exception` whose class defines `__bool__` returning False (or `__len__` returning 0); the call returns None instead of raising | re-raise whenever an error was captured (`exception[0] is not None`) | low; not executed | `Properties.FalsyErrorSwallowed` | `Properties.SyncErrorPassThrough` |

`FalsyErrorSwallowed` is proved about `Decorator.SyncOutcomeAsWritten`, which keeps the truth
test; `Decorator.SyncWrapperAsWritten` is the stateful wrapper proved against it. `Decorator.SyncOutcome` tests whether the slot holds an error. `Decorator.SyncWrapper` is
proved against `SyncOutcome`, and so is every other property.
