/** Failure-compatible wrappers shared by the engines: an absent value, and the
    outcome of a Python expression that may raise. */
module Wrappers {

  /** A value that may be missing; `None` plays the part of Python's `None`
      as returned by an engine that gave up. */
  datatype Option<+T> = None | Some(value: T)

  /** The Python exceptions the remote normaliser can run into. */
  datatype Exc = KeyError | IndexError | TypeError | AttributeError

  /** The result of evaluating a Python expression: a value, or an exception
      that propagates to the nearest `except`. Usable with `:-`. */
  datatype Py<+T> = Val(value: T) | Raise(exc: Exc) {

    predicate IsFailure() {
      Raise?
    }

    function PropagateFailure<U>(): Py<U>
      requires Raise?
    {
      Raise(exc)
    }

    function Extract(): T
      requires Val?
    {
      value
    }
  }

  /** `try: ... except Exception: return None` around a block that returns
      an optional value: every exception becomes `None`. */
  function CatchAll<T>(p: Py<Option<T>>): (r: Option<T>)
    ensures p.Raise? ==> r == None
    ensures p.Val? ==> r == p.value
  {
    match p
    case Val(o) => o
    case Raise(_) => None
  }
}
