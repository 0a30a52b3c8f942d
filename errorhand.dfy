/** The error-wrapping helper of lib/errorhand, which every layer uses in a deferred call. */
module ErrorHand {
  import opened Wrappers

  /**
   * IfError(msg, err): a nil error stays nil; a non-nil error becomes an error whose
   * message is `msg`, then ": ", then the old message. An error is modelled by its message.
   * The second ensures says that Unwrap recovers the wrapped error exactly.
   */
  function IfError(msg: string, err: Option<string>): (r: Option<string>)
    ensures r.None? <==> err.None?
    ensures err.Some? ==> Unwrap(msg, r.value) == err
  {
    if err.Some? then Some(msg + ": " + err.value) else None
  }

  /** The inverse of IfError: strips the prefix `msg + ": "`, if the message carries it. */
  function Unwrap(msg: string, wrapped: string): (inner: Option<string>)
    ensures inner.Some? ==> wrapped == msg + ": " + inner.value
  {
    var n := |msg| + 2;
    if n <= |wrapped| && wrapped[..n] == msg + ": " then Some(wrapped[n..]) else None
  }

  /** Wrapping is injective: different errors, or nil and non-nil, stay apart. */
  lemma IfErrorInjective(msg: string, e1: Option<string>, e2: Option<string>)
    requires IfError(msg, e1) == IfError(msg, e2)
    ensures e1 == e2
  {
    if e1.Some? {
      assert Unwrap(msg, IfError(msg, e1).value) == e1;
    }
  }

  /** Two layers of wrapping give "outer: inner: cause", and peeling both restores the cause. */
  lemma IfErrorNested(outer: string, inner: string, cause: string)
    ensures IfError(outer, IfError(inner, Some(cause))) == Some(outer + ": " + inner + ": " + cause)
    ensures Unwrap(outer, IfError(outer, IfError(inner, Some(cause))).value) == Some(inner + ": " + cause)
  {
    assert outer + ": " + (inner + ": " + cause) == outer + ": " + inner + ": " + cause;
  }
}
