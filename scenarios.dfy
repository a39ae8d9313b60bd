/** The repository's test cases, each as the outcome the model gives. The sleeps of the tests
    decide the race, so each case names its winner. */
module Scenarios {
  import opened Values
  import opened Trace
  import opened Decorator

  const NoArgs := Call([], map[])
  const Plain := Config(None, None)
  const Done := Object(1)
  const CustomTimeoutError := ErrorClass("CustomTimeoutError", OrdinaryCategory)
  const TestError := Error(ErrorClass("ValueError", OrdinaryCategory), "Test error", true)

  /** The timeout text for the tests' sync function. */
  lemma SyncTimeoutMessage()
    ensures TimeoutMessage(Sync, "slow_function") == "Sync function slow_function timed out."
  {
    assert "Sync" + " function " == "Sync function ";
    assert "Sync function " + "slow_function" == "Sync function slow_function";
  }

  /** The timeout text for the tests' async function. */
  lemma AsyncTimeoutMessage()
    ensures TimeoutMessage(Async, "slow_async_function") == "Async function slow_async_function timed out."
  {
    assert "Async" + " function " == "Async function ";
    assert "Async function " + "slow_async_function" == "Async function slow_async_function";
  }

  /** `timeout_decorator(1)` on a function sleeping 2 seconds returns None, after a warning. */
  lemma SyncTimeoutReturnsNone()
    ensures var f := Func("slow_function", false);
            Outcome(KindOf(f), f, NoArgs, Plain, DeadlineFirst)
              == [LogWarning("Sync function slow_function timed out."), Return(NoneValue)]
  {
    SyncTimeoutMessage();
  }

  /** `timeout_decorator(2)` on a function sleeping 1 second returns "Done". */
  lemma SyncSuccessReturnsValue()
    ensures var f := Func("fast_function", false);
            Outcome(KindOf(f), f, NoArgs, Plain, Finished(Returned(Done))) == [Return(Done)]
  {
  }

  /** The async timeout case: awaiting the task gives None. */
  lemma AsyncTimeoutReturnsNone()
    ensures var f := Func("slow_async_function", true);
            Outcome(KindOf(f), f, NoArgs, Plain, DeadlineFirst)
              == [LogWarning("Async function slow_async_function timed out."), Return(NoneValue)]
  {
    AsyncTimeoutMessage();
  }

  /** The async success case: awaiting the task gives "Done". */
  lemma AsyncSuccessReturnsValue()
    ensures var f := Func("fast_async_function", true);
            Outcome(KindOf(f), f, NoArgs, Plain, Finished(Returned(Done))) == [Return(Done)]
  {
  }

  /** With a callback, a sync timeout calls it with the function's name and returns None. */
  lemma SyncTimeoutCallsCallback()
    ensures var f := Func("slow_function", false);
            Outcome(KindOf(f), f, NoArgs, Config(Some(Completes), None), DeadlineFirst)
              == [LogWarning("Sync function slow_function timed out."),
                  CallCallback("slow_function", [], map[]),
                  Return(NoneValue)]
  {
    SyncTimeoutMessage();
  }

  /** With `custom_error`, a sync timeout raises CustomTimeoutError. */
  lemma SyncTimeoutRaisesCustomError()
    ensures var f := Func("slow_function", false);
            Final(Outcome(KindOf(f), f, NoArgs, Config(None, Some(CustomTimeoutError)), DeadlineFirst))
              == Raise(Error(CustomTimeoutError, "Sync function slow_function timed out.", true))
  {
    SyncTimeoutMessage();
  }

  /** With `custom_error`, awaiting a timed-out async task raises CustomTimeoutError. */
  lemma AsyncTimeoutRaisesCustomError()
    ensures var f := Func("slow_async_function", true);
            Final(Outcome(KindOf(f), f, NoArgs, Config(None, Some(CustomTimeoutError)), DeadlineFirst))
              == Raise(Error(CustomTimeoutError, "Async function slow_async_function timed out.", true))
  {
    AsyncTimeoutMessage();
  }

  /** `ValueError("Test error")` from sync work propagates unchanged. */
  lemma SyncErrorPropagates()
    ensures var f := Func("error_function", false);
            Final(Outcome(KindOf(f), f, NoArgs, Plain, Finished(Raised(TestError)))) == Raise(TestError)
  {
  }

  /** `ValueError("Test error")` from async work propagates unchanged. */
  lemma AsyncErrorPropagates()
    ensures var f := Func("error_async_function", true);
            Final(Outcome(KindOf(f), f, NoArgs, Plain, Finished(Raised(TestError)))) == Raise(TestError)
  {
  }
}
