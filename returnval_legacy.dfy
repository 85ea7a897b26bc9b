// The earlier, two-state revision of the result/error container
// (classes/ReturnVal.h): the discriminant is a `const bool m_FunctionFailed`.
// DefaultError, FunctionFail and the Check/Force switch are word for word the
// same as in core/ReturnVal.h, so they are taken from module CoreReturnVal.

module LegacyReturnVal {
  import opened CoreReturnVal

  class ReturnVal<R(0), E(0)> {
    /** `const bool m_FunctionFailed`: fixed by the constructor, never reassigned. */
    const functionFailed: bool
    /** The union holding either the result or the error. */
    var payload: Payload<R, E>

    ghost predicate Valid()
      reads this
    {
      functionFailed <==> payload.ErrorPayload?
    }

    /** `ReturnVal(Res_Ty)` / `ReturnVal(Res_Ty&&)`: the flag is false and the result is stored. */
    constructor FromResult(result: R)
      ensures Valid()
      ensures !functionFailed && payload == ResultPayload(result)
    {
      functionFailed := false;
      payload := ResultPayload(result);
    }

    /** `ReturnVal(FunctionFail<Err_Ty>&&)`: the flag is true and the marker's error is moved in. */
    constructor FromFail(fail: FunctionFail<E>)
      ensures Valid()
      ensures functionFailed && payload == ErrorPayload(fail.error)
    {
      functionFailed := true;
      payload := ErrorPayload(fail.error);
    }

    /** `Failed()`: the flag, which is set exactly when the error is the live payload. */
    predicate Failed()
      reads this
      requires Valid()
      ensures Failed() <==> payload.ErrorPayload?
    {
      functionFailed
    }

    /** `Success()`: the negation of the flag. */
    predicate Success()
      reads this
      requires Valid()
      ensures Success() <==> !Failed()
      ensures Success() <==> payload.ResultPayload?
    {
      !functionFailed
    }

    /** `Error<force>()`: checked access with the flag false ends the process; Force skips the check. */
    method Error(mode: Access) returns (e: E)
      requires Valid()
      requires mode == Check ==> functionFailed
      ensures functionFailed ==> payload == ErrorPayload(e)
    {
      if payload.ErrorPayload? {
        e := payload.error;
      } else {
        e := *;
      }
    }

    /** `Result<force>()`: checked access with the flag true ends the process; Force skips the check. */
    method Result(mode: Access) returns (r: R)
      requires Valid()
      requires mode == Check ==> !functionFailed
      ensures !functionFailed ==> payload == ResultPayload(r)
    {
      if payload.ResultPayload? {
        r := payload.result;
      } else {
        r := *;
      }
    }

    /** Writing through the reference `Result()` returns; the const flag cannot change. */
    method AssignResult(result: R)
      requires Valid() && !functionFailed
      modifies this
      ensures Valid()
      ensures payload == ResultPayload(result)
    {
      payload := ResultPayload(result);
    }

    /** Writing through the reference `Error()` returns. */
    method AssignError(error: E)
      requires Valid() && functionFailed
      modifies this
      ensures Valid()
      ensures payload == ErrorPayload(error)
    {
      payload := ErrorPayload(error);
    }

    /** `~ReturnVal()`: destroys the error iff the flag is set, otherwise the result. */
    method Destruct(tally: DestructorTally)
      requires Valid()
      modifies tally
      ensures functionFailed ==>
        tally.errorsDestroyed == old(tally.errorsDestroyed) + 1 && tally.resultsDestroyed == old(tally.resultsDestroyed)
      ensures !functionFailed ==>
        tally.resultsDestroyed == old(tally.resultsDestroyed) + 1 && tally.errorsDestroyed == old(tally.errorsDestroyed)
    {
      if functionFailed {
        tally.errorsDestroyed := tally.errorsDestroyed + 1;
      } else {
        tally.resultsDestroyed := tally.resultsDestroyed + 1;
      }
    }
  }

  /**
   * A success value reads back unchanged, and writing a new result through the
   * accessor leaves the container successful.
   */
  method SuccessRoundTrip<R(0), E(0)>(result: R, replacement: R)
    returns (got: R, failed: bool, afterWrite: R, failedAfterWrite: bool)
    ensures got == result && !failed
    ensures afterWrite == replacement && !failedAfterWrite
  {
    var rv := new ReturnVal<R, E>.FromResult(result);
    got := rv.Result(Check);
    failed := rv.Failed();
    rv.AssignResult(replacement);
    afterWrite := rv.Result(Check);
    failedAfterWrite := rv.Failed();
  }

  /** An error from FunctionFail reads back unchanged, and the container stays failed. */
  method FailureRoundTrip<R(0), E(0)>(fail: FunctionFail<E>)
    returns (got: E, failed: bool, success: bool)
    ensures got == fail.error && failed && !success
  {
    var rv := new ReturnVal<R, E>.FromFail(fail);
    got := rv.Error(Check);
    failed := rv.Failed();
    success := rv.Success();
  }
}
