/** Optional values, results and the errors that travel through the service. */
module Wrappers {

  datatype Option<+T> = None | Some(value: T)

  datatype Result<+T, +E> = Success(value: T) | Failure(error: E)

  /** The exceptions the order path tells apart. */
  datatype Error =
    | HttpError(status: int)
    | ExchangeError
    | NetworkError
    | ValueError
    | OtherError

  function Max(a: int, b: int): int { if a < b then b else a }

  function Min(a: int, b: int): int { if a < b then a else b }

  /** A column after an UPDATE that assigns `value` to it. SQLAlchemy leaves out the columns assigned the
      value they were read with, so what another request has written since then stays. */
  function Assigned<T(==)>(read: T, value: T, stored: T): T { if value == read then stored else value }

  /** The first position of a sequence where p holds, or its length. */
  function FirstWhere<T>(p: T -> bool, s: seq<T>): (i: nat)
    ensures i <= |s|
    ensures i < |s| ==> p(s[i])
    ensures forall j :: 0 <= j < i ==> !p(s[j])
  {
    if s == [] || p(s[0]) then 0 else 1 + FirstWhere(p, s[1..])
  }

  method FindFirst<T>(p: T -> bool, s: seq<T>) returns (i: nat)
    ensures i == FirstWhere(p, s)
  {
    i := 0;
    while i < |s| && !p(s[i])
      invariant i <= |s| && forall j :: 0 <= j < i ==> !p(s[j])
    {
      i := i + 1;
    }
  }
}
