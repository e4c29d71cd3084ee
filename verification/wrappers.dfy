/**
 * Optional values and failing computations.  A Python function that
 * raises an exception is modelled as returning `Err` with the exception's
 * class; one that returns `None` as returning `None`.
 */
module Wrappers {

  datatype Option<+T> = None | Some(value: T)

  datatype Result<+T, +E> = Ok(value: T) | Err(error: E)

  /** The Python exception classes the modelled code can raise. */
  datatype Error =
    | IndexError
    | KeyError
    | ValueError
    | ZeroDivisionError
    | NotImplementedError
    | TypeError

  /**
   * Python's `lst[i]` on a list of length `len`: a negative index counts
   * from the end; anything else out of range is an IndexError.
   */
  function ListIndex(len: nat, i: int): (r: Option<nat>)
    ensures r.Some? <==> -(len as int) <= i < len
    ensures r.Some? ==> r.value < len && (r.value == i || r.value == i + len)
  {
    if 0 <= i < len then Some(i) else if -(len as int) <= i < 0 then Some(i + len) else None
  }

  /** Indexing a list by a value that may be `None`, which is a TypeError. */
  function LevelIndex(len: nat, level: Option<int>): (r: Result<nat, Error>)
    ensures level.None? <==> r == Err(TypeError)
    ensures level.Some? ==> (r.Ok? <==> ListIndex(len, level.value).Some?)
    ensures r.Ok? ==> level.Some? && Some(r.value) == ListIndex(len, level.value)
    ensures r.Err? ==> r.error == TypeError || r.error == IndexError
  {
    match level
    case None => Err(TypeError)
    case Some(i) => if ListIndex(len, i).Some? then Ok(ListIndex(len, i).value) else Err(IndexError)
  }
}
