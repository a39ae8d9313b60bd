/** The observable effects of one call of a decorated function, in the order they happen. */
module Trace {
  import opened Values

  datatype Effect =
    | LogWarning(msg: string)                                                   // logger.warning(msg)
    | LogError(msg: string)                                                     // logger.error(msg)
    | CallCallback(name: string, args: seq<Value>, kwargs: map<string, Value>)  // callback(name, *args, **kwargs)
    | Return(value: Value)                                                      // the call returns value
    | Raise(error: Error)                                                       // the call raises error

  /** Return and Raise end a call. */
  predicate IsTerminal(e: Effect) {
    e.Return? || e.Raise?
  }

  /** The kinds of effect that are counted. */
  datatype Tag = WarningTag | ErrorTag | CallbackTag | TerminalTag

  function TagOf(e: Effect): (g: Tag)
    ensures g == TerminalTag <==> IsTerminal(e)
  {
    match e
    case LogWarning(_) => WarningTag
    case LogError(_) => ErrorTag
    case CallCallback(_, _, _) => CallbackTag
    case Return(_) => TerminalTag
    case Raise(_) => TerminalTag
  }

  /** The number of effects of kind g in t. */
  function Count(t: seq<Effect>, g: Tag): (n: nat)
    ensures n <= |t|
    ensures n == 0 <==> forall i :: 0 <= i < |t| ==> TagOf(t[i]) != g
  {
    if t == [] then 0
    else
      assert forall i :: 0 < i < |t| ==> t[i] == t[1..][i - 1];
      (if TagOf(t[0]) == g then 1 else 0) + Count(t[1..], g)
  }

  /** A call that has ended: the last effect is its only Return or Raise. */
  predicate Completed(t: seq<Effect>) {
    && |t| > 0
    && IsTerminal(t[|t| - 1])
    && forall i :: 0 <= i < |t| - 1 ==> !IsTerminal(t[i])
  }

  /** How a completed call ended. */
  function Final(t: seq<Effect>): Effect
    requires |t| > 0
  {
    t[|t| - 1]
  }

  lemma {:induction false} CountConcat(a: seq<Effect>, b: seq<Effect>, g: Tag)
    ensures Count(a + b, g) == Count(a, g) + Count(b, g)
  {
    if a != [] {
      assert (a + b)[1..] == a[1..] + b;
      CountConcat(a[1..], b, g);
    } else {
      assert a + b == b;
    }
  }

  /** Completed says the same as "ends in a terminal effect, and holds exactly one". */
  lemma {:induction false} CompletedByCount(t: seq<Effect>)
    ensures Completed(t) <==> |t| > 0 && IsTerminal(Final(t)) && Count(t, TerminalTag) == 1
  {
    if |t| > 0 {
      var prefix := t[..|t| - 1];
      assert t == prefix + [Final(t)];
      CountConcat(prefix, [Final(t)], TerminalTag);
      assert forall i :: 0 <= i < |prefix| ==> prefix[i] == t[i];
    }
  }
}
