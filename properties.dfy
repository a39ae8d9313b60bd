/** What a call of a decorated function is promised to do, for every race outcome and option. */
module Properties {
  import opened Values
  import opened Trace
  import opened Decorator

  /** The race outcomes that reach the timeout branch: the deadline, and on the async path also
      an asyncio.TimeoutError raised by the work itself. */
  predicate TakesTimeoutBranch(k: Kind, race: Race) {
    || race.DeadlineFirst?
    || (k == Async && race.result.Raised? && IsTimeoutType(race.result.error))
  }

  /** The race outcomes whose error is logged and re-raised. */
  predicate ReraisesWorkError(k: Kind, race: Race) {
    && race.Finished?
    && race.result.Raised?
    && IsException(race.result.error)
    && !TakesTimeoutBranch(k, race)
  }

  /** The counts of OnTimeout's effects. */
  lemma OnTimeoutCounts(k: Kind, f: Func, call: Call, cfg: Config)
    ensures Count(OnTimeout(k, f, call, cfg), WarningTag) == 1
    ensures Count(OnTimeout(k, f, call, cfg), ErrorTag) == 0
    ensures Count(OnTimeout(k, f, call, cfg), CallbackTag) == if cfg.callback.Some? then 1 else 0
    ensures Count(OnTimeout(k, f, call, cfg), TerminalTag) == 1
  {
  }

  /** Timeout ordering: one warning first, then the callback with the function's name and the
      original arguments when there is one, then the final return or raise; no error log. */
  lemma TimeoutOrdering(k: Kind, f: Func, call: Call, cfg: Config, t: seq<Effect>)
    requires t == Outcome(k, f, call, cfg, DeadlineFirst)
    ensures Completed(t)
    ensures t[0] == LogWarning(TimeoutMessage(k, f.name))
    ensures Count(t, WarningTag) == 1 && Count(t, ErrorTag) == 0
    ensures Count(t, CallbackTag) == 1 <==> cfg.callback.Some?
    ensures Count(t, CallbackTag) <= 1
    ensures cfg.callback.Some? ==> |t| == 3 && t[1] == CallCallback(f.name, call.args, call.kwargs)
    ensures cfg.callback.None? ==> |t| == 2
  {
    assert t == OnTimeout(k, f, call, cfg);
    OnTimeoutCounts(k, f, call, cfg);
  }

  /** Custom error on timeout: with `custom_error` set a timeout never returns; unless the
      callback fails it raises `custom_error("<Sync|Async> function <name> timed out.")`. */
  lemma CustomErrorOnTimeout(k: Kind, f: Func, call: Call, cfg: Config, c: ErrorClass, t: seq<Effect>)
    requires cfg.customError == Some(c)
    requires t == Outcome(k, f, call, cfg, DeadlineFirst)
    ensures Completed(t) && Final(t).Raise?
    ensures forall i :: 0 <= i < |t| ==> !t[i].Return?
    ensures !CallbackFails(cfg) ==> Final(t) == Raise(Construct(c, TimeoutMessage(k, f.name)))
  {
    TimeoutOrdering(k, f, call, cfg, t);
  }

  /** None and callback on timeout: without `custom_error` (and with a callback that returns)
      a timeout returns None, and the callback is called iff it is set. */
  lemma NoneOnTimeout(k: Kind, f: Func, call: Call, cfg: Config, t: seq<Effect>)
    requires cfg.customError.None? && !CallbackFails(cfg)
    requires t == Outcome(k, f, call, cfg, DeadlineFirst)
    ensures Completed(t) && Final(t) == Return(NoneValue)
    ensures Count(t, CallbackTag) == 1 <==> cfg.callback.Some?
  {
    TimeoutOrdering(k, f, call, cfg, t);
  }

  /** Callback failure: the callback's own error is what the call raises; `custom_error` plays
      no part and nothing is returned. */
  lemma CallbackFailurePropagates(k: Kind, f: Func, call: Call, cfg: Config, e: Error, t: seq<Effect>)
    requires cfg.callback == Some(Fails(e))
    requires t == Outcome(k, f, call, cfg, DeadlineFirst)
    ensures t == [LogWarning(TimeoutMessage(k, f.name)), CallCallback(f.name, call.args, call.kwargs), Raise(e)]
    ensures t == Outcome(k, f, call, cfg.(customError := None), DeadlineFirst)
  {
  }

  /** Value pass-through: when the work returns v first, the call returns exactly v and does
      nothing else. */
  lemma ValuePassThrough(k: Kind, f: Func, call: Call, cfg: Config, v: Value, t: seq<Effect>)
    requires t == Outcome(k, f, call, cfg, Finished(Returned(v)))
    ensures t == [Return(v)]
  {
  }

  /** Error pass-through: an Exception of the work (on the async path, one that is not an
      asyncio.TimeoutError) is logged once at error level and then re-raised as the very same
      error; no warning, no callback. */
  lemma ErrorPassThrough(k: Kind, f: Func, call: Call, cfg: Config, e: Error, t: seq<Effect>)
    requires IsException(e) && !(k == Async && IsTimeoutType(e))
    requires t == Outcome(k, f, call, cfg, Finished(Raised(e)))
    ensures Completed(t) && Final(t) == Raise(e)
    ensures t[0] == LogError(ErrorMessage(k, f.name, e))
    ensures Count(t, ErrorTag) == 1 && Count(t, WarningTag) == 0 && Count(t, CallbackTag) == 0
  {
  }

  /** On the sync path every Exception of the work, a timeout-typed one included, is re-raised
      after an error log: `target` captured it, so it never reaches the timeout branch. */
  lemma SyncErrorPassThrough(f: Func, call: Call, cfg: Config, e: Error)
    requires IsException(e)
    ensures SyncOutcome(f, call, cfg, Finished(Raised(e))) == [LogError(ErrorMessage(Sync, f.name, e)), Raise(e)]
  {
  }

  /** On the async path an asyncio.TimeoutError raised by the work is handled exactly as the
      deadline is. */
  lemma AsyncTimeoutErrorIsTimeout(f: Func, call: Call, cfg: Config, e: Error)
    requires IsTimeoutType(e)
    ensures AsyncOutcome(f, call, cfg, Finished(Raised(e))) == AsyncOutcome(f, call, cfg, DeadlineFirst)
  {
  }

  /** An error outside Exception passes both wrappers unlogged and unchanged. */
  lemma BaseErrorEscapes(k: Kind, f: Func, call: Call, cfg: Config, e: Error)
    requires !IsException(e)
    ensures Outcome(k, f, call, cfg, Finished(Raised(e))) == [Raise(e)]
  {
  }

  /** Once the work has won the race, the callback and `custom_error` make no difference
      (except for an asyncio.TimeoutError of the work on the async path). */
  lemma FinishedIgnoresConfig(k: Kind, f: Func, call: Call, cfg1: Config, cfg2: Config, w: WorkResult)
    requires !TakesTimeoutBranch(k, Finished(w))
    ensures Outcome(k, f, call, cfg1, Finished(w)) == Outcome(k, f, call, cfg2, Finished(w))
  {
  }

  /** Every call ends exactly once, with its last effect, and its warnings, error logs and
      callback calls are those of the branch the race outcome selects. */
  lemma EffectCounts(k: Kind, f: Func, call: Call, cfg: Config, race: Race, t: seq<Effect>)
    requires t == Outcome(k, f, call, cfg, race)
    ensures Completed(t) && Count(t, TerminalTag) == 1
    ensures Count(t, WarningTag) == if TakesTimeoutBranch(k, race) then 1 else 0
    ensures Count(t, CallbackTag) == if TakesTimeoutBranch(k, race) && cfg.callback.Some? then 1 else 0
    ensures Count(t, ErrorTag) == if ReraisesWorkError(k, race) then 1 else 0
  {
    if TakesTimeoutBranch(k, race) {
      assert t == OnTimeout(k, f, call, cfg);
      TimeoutOrdering(k, f, call, cfg, OnTimeout(k, f, call, cfg));
    } else if ReraisesWorkError(k, race) {
      ErrorPassThrough(k, f, call, cfg, race.result.error, t);
    }
    CompletedByCount(t);
  }

  /** The None a timed-out call returns cannot be told apart, by value, from a work that
      returns None. */
  lemma NoneSentinelIsAmbiguous(k: Kind, f: Func, call: Call, cfg: Config)
    requires cfg.customError.None? && !CallbackFails(cfg)
    ensures Final(Outcome(k, f, call, cfg, Finished(Returned(NoneValue)))) == Final(Outcome(k, f, call, cfg, DeadlineFirst))
  {
    TimeoutOrdering(k, f, call, cfg, Outcome(k, f, call, cfg, DeadlineFirst));
  }

  /** As written, `if exception[0]:` lets a captured error whose truth test fails go: the call
      returns None instead of raising it. */
  lemma FalsyErrorSwallowed(f: Func, call: Call, cfg: Config, e: Error)
    requires IsException(e) && !e.truthy
    ensures SyncOutcomeAsWritten(f, call, cfg, Finished(Raised(e))) == [Return(NoneValue)]
    ensures SyncOutcomeAsWritten(f, call, cfg, Finished(Raised(e))) != SyncOutcome(f, call, cfg, Finished(Raised(e)))
  {
  }

  /** The slot test as written and the corrected one differ only on errors whose truth test fails. */
  lemma AsWrittenAgreesOnTruthyErrors(f: Func, call: Call, cfg: Config, race: Race)
    requires !(race.Finished? && race.result.Raised? && !race.result.error.truthy)
    ensures SyncOutcomeAsWritten(f, call, cfg, race) == SyncOutcome(f, call, cfg, race)
  {
  }
}
