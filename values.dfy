/** Python values and exceptions, as far as the timeout decorator can tell them apart. */
module Values {

  datatype Option<+T> = None | Some(value: T)

  /** A Python object: `None`, or any other object (identified abstractly). */
  datatype Value = NoneValue | Object(id: nat)

  /** Which of the decorator's `except` clauses catches an exception class. */
  datatype Category =
    | TimeoutCategory   // an instance of asyncio.TimeoutError, caught by `except asyncio.TimeoutError`
    | OrdinaryCategory  // any other subclass of Exception, caught by `except Exception`
    | BaseOnlyCategory  // derives from BaseException only (SystemExit, KeyboardInterrupt, ...)

  datatype ErrorClass = ErrorClass(name: string, category: Category)

  /** An exception instance: its class, the text `str(e)` yields, and the outcome of Python's
      truth test on it (true unless the class overrides `__bool__` or `__len__`). */
  datatype Error = Error(cls: ErrorClass, message: string, truthy: bool)

  /** True iff `except Exception` catches the error. */
  predicate IsException(e: Error) {
    e.cls.category != BaseOnlyCategory
  }

  /** True iff `except asyncio.TimeoutError` catches the error. */
  predicate IsTimeoutType(e: Error) {
    e.cls.category == TimeoutCategory
  }

  /** `cls(message)`: a fresh instance of an exception class. */
  function Construct(cls: ErrorClass, message: string): Error {
    Error(cls, message, true)
  }
}
