/**
 * The exceptions of exceptions.py, and the Python exceptions the client
 * lets escape without wrapping them.
 */
module Errors {

  /** Every way a call into the client can end other than with a value. */
  datatype Error =
      /** exceptions.ConnectionError: transport failure, timeout, status outside 2xx. */
    | ConnectionError(reason: string)
      /** exceptions.ResponseError: declared server error, malformed envelope, unknown folder. */
    | ResponseError(reason: string)
      /** A Python exception the client does not catch, named by its class (TypeError, KeyError, ...). */
    | Uncaught(exception: string)
  {
    /** ConnectionError and ResponseError are the two subclasses of SessionError. */
    predicate IsSessionError() { ConnectionError? || ResponseError? }
  }

  /** A value, or the exception raised instead. */
  datatype Result<+T> = Ok(value: T) | Err(error: Error) {
    predicate IsFailure() { Err? }

    function PropagateFailure<U>(): Result<U>
      requires Err?
    {
      Err(error)
    }

    function Extract(): T
      requires Ok?
    {
      value
    }
  }

  const SessionPrefix := "Subsonic Error: "

  /** str() of a SessionError: the constructor argument behind a fixed prefix. */
  function Message(e: Error): (m: string)
    requires e.IsSessionError()
    ensures |m| == |SessionPrefix| + |e.reason|
    ensures m[..|SessionPrefix|] == SessionPrefix && m[|SessionPrefix|..] == e.reason
  {
    SessionPrefix + e.reason
  }

  /** Two session errors of the same kind print the same message only if they carry the same reason. */
  lemma MessageInjective(a: Error, b: Error)
    requires a.IsSessionError() && b.IsSessionError()
    requires a.ConnectionError? == b.ConnectionError?
    requires Message(a) == Message(b)
    ensures a == b
  {
    assert a.reason == Message(a)[|SessionPrefix|..] == Message(b)[|SessionPrefix|..] == b.reason;
  }

  /**
   * A list comprehension `[f(x) for x in xs]` whose element constructor may
   * raise: the elements are built in order and the first exception propagates.
   */
  function MapResult<A, B>(xs: seq<A>, f: A -> Result<B>): (r: Result<seq<B>>)
    ensures r.Ok? <==> forall k :: 0 <= k < |xs| ==> f(xs[k]).Ok?
    ensures r.Ok? ==> |r.value| == |xs| && forall k :: 0 <= k < |xs| ==> r.value[k] == f(xs[k]).value
    ensures r.Err? ==> exists k :: 0 <= k < |xs| && f(xs[k]) == Err(r.error) && forall j :: 0 <= j < k ==> f(xs[j]).Ok?
  {
    if xs == [] then Ok([])
    else
      match f(xs[0])
      case Err(e) => Err(e)
      case Ok(y) =>
        match MapResult(xs[1..], f)
        case Err(e) =>
          ghost var k :| 0 <= k < |xs[1..]| && f(xs[1..][k]) == Err(e) && forall j :: 0 <= j < k ==> f(xs[1..][j]).Ok?;
          assert f(xs[k + 1]) == Err(e) && forall j :: 0 <= j < k + 1 ==> f(xs[j]).Ok?;
          Err(e)
        case Ok(ys) => Ok([y] + ys)
  }
}
