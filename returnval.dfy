// The typed result/error container of core/ReturnVal.h: the later revision,
// whose discriminant has three states (failed, succeeded, succeeded with a
// warning). The C++ class keeps a pointer compared against two static sentinel
// addresses and a union of the two payloads; here the discriminant is an
// explicit tag and the union a datatype, so exactly one payload is ever live.

module CoreReturnVal {
  import opened Wrappers

  /** Default error type: carries a message it does not own. */
  datatype DefaultError = DefaultError(message: string)

  const NoReasonMessage: string := "NO REASON PROVIDED"

  /** `DefaultError()`: the error used when no reason is given. */
  function NewDefaultError(): (e: DefaultError)
    ensures e.message == NoReasonMessage
    ensures forall msg :: e == DefaultError(msg) <==> msg == NoReasonMessage
  {
    DefaultError(NoReasonMessage)
  }

  /** The marker a failing function returns; its error is moved into the ReturnVal that consumes it. */
  datatype FunctionFail<E> = FunctionFail(error: E)

  /**
   * `FunctionFail(args...)`: the error is built in place from the arguments; the
   * C++ overload exists only when E can be built from them, so `construct`
   * stands for that constructor.
   */
  function FunctionFailInPlace<A, E>(construct: A -> E, args: A): (f: FunctionFail<E>)
    ensures f.error == construct(args)
  {
    FunctionFail(construct(args))
  }

  /** `Result::Check` (the default) or `Result::Force` on the accessors. */
  datatype Access = Check | Force

  /** The discriminant: the two sentinel addresses, or any other address, which points at a warning. */
  datatype ResultState<W> = FailState | SuccState | WarnState(warning: W)

  /** The union: exactly one of a result and an error is live. */
  datatype Payload<R, E> = ResultPayload(result: R) | ErrorPayload(error: E)

  /** Counts of payload destructor calls, as an instrumented payload type would record them. */
  class DestructorTally {
    var resultsDestroyed: nat
    var errorsDestroyed: nat

    constructor ()
      ensures resultsDestroyed == 0 && errorsDestroyed == 0
    {
      resultsDestroyed, errorsDestroyed := 0, 0;
    }
  }

  class ReturnVal<R(0), E(0), W> {
    /** Set once by the constructors and never changed, like the C++ discriminant. */
    const state: ResultState<W>
    /** The payload storage; callers may change the live payload's value through an accessor. */
    var payload: Payload<R, E>

    /** The live payload matches the discriminant: the error iff the state is the fail sentinel. */
    ghost predicate Valid()
      reads this
    {
      state.FailState? <==> payload.ErrorPayload?
    }

    /** `ReturnVal(Res_Ty)` and `ReturnVal(Res_Ty&&)`: copy or move the result in; the state is success. */
    constructor FromResult(result: R)
      ensures Valid()
      ensures state == SuccState && payload == ResultPayload(result)
    {
      state := SuccState;
      payload := ResultPayload(result);
    }

    /** `ReturnVal(FunctionFail<Err_Ty>&&)`: move the marker's error in; the state is failed. */
    constructor FromFail(fail: FunctionFail<E>)
      ensures Valid()
      ensures state == FailState && payload == ErrorPayload(fail.error)
    {
      state := FailState;
      payload := ErrorPayload(fail.error);
    }

    /** `Failed()`: the discriminant is the fail sentinel, which is when the error is the live payload. */
    predicate Failed()
      reads this
      requires Valid()
      ensures Failed() <==> payload.ErrorPayload?
    {
      state == FailState
    }

    /** `Success()`: anything but the fail sentinel, a warning state included. */
    predicate Success()
      reads this
      requires Valid()
      ensures Success() <==> !Failed()
      ensures Success() <==> payload.ResultPayload?
    {
      state != FailState
    }

    /** `GetWarning()`: null for both sentinels, otherwise the warning the discriminant points at. */
    function GetWarning(): (w: Option<W>)
      reads this
      requires Valid()
      ensures w.Some? <==> state.WarnState?
      ensures w.Some? ==> Success() && w.value == state.warning
      ensures Failed() ==> w == None
    {
      if state == FailState || state == SuccState then None else Some(state.warning)
    }

    /** `SuccessNoWarnings()`: the success sentinel itself, i.e. a success that carries no warning. */
    predicate SuccessNoWarnings()
      reads this
      requires Valid()
      ensures SuccessNoWarnings() <==> Success() && GetWarning() == None
    {
      state == SuccState
    }

    /**
     * `Error<force>()`: with `Check`, reaching it on a successful value calls
     * EndProcess, which never returns, so the caller must know it failed.
     * With `Force` there is no check; on a successful value the bytes read
     * are not an error, and the model leaves the value unspecified.
     */
    method Error(mode: Access) returns (e: E)
      requires Valid()
      requires mode == Check ==> Failed()
      ensures Failed() ==> payload == ErrorPayload(e)
    {
      if payload.ErrorPayload? {
        e := payload.error;
      } else {
        e := *;
      }
    }

    /** `Result<force>()`: the mirror image of Error for the result payload. */
    method Result(mode: Access) returns (r: R)
      requires Valid()
      requires mode == Check ==> Success()
      ensures Success() ==> payload == ResultPayload(r)
    {
      if payload.ResultPayload? {
        r := payload.result;
      } else {
        r := *;
      }
    }

    /** Writing through the reference `Result()` returns: the result changes, the discriminant cannot. */
    method AssignResult(result: R)
      requires Valid() && Success()
      modifies this
      ensures Valid() && Success()
      ensures payload == ResultPayload(result)
    {
      payload := ResultPayload(result);
    }

    /** Writing through the reference `Error()` returns. */
    method AssignError(error: E)
      requires Valid() && Failed()
      modifies this
      ensures Valid() && Failed()
      ensures payload == ErrorPayload(error)
    {
      payload := ErrorPayload(error);
    }

    /** `~ReturnVal()`: runs the error's destructor iff Failed(), otherwise the result's; never both. */
    method Destruct(tally: DestructorTally)
      requires Valid()
      modifies tally
      ensures Failed() ==>
        tally.errorsDestroyed == old(tally.errorsDestroyed) + 1 && tally.resultsDestroyed == old(tally.resultsDestroyed)
      ensures Success() ==>
        tally.resultsDestroyed == old(tally.resultsDestroyed) + 1 && tally.errorsDestroyed == old(tally.errorsDestroyed)
    {
      if Failed() {
        tally.errorsDestroyed := tally.errorsDestroyed + 1;
      } else {
        tally.resultsDestroyed := tally.resultsDestroyed + 1;
      }
    }
  }

  /**
   * A value returned as a success reads back unchanged through the checked
   * accessor, and the container reports success without a warning.
   */
  method SuccessRoundTrip<R(0), E(0), W>(result: R)
    returns (got: R, failed: bool, noWarnings: bool, warning: Option<W>)
    ensures got == result && !failed && noWarnings && warning == None
  {
    var rv := new ReturnVal<R, E, W>.FromResult(result);
    got := rv.Result(Check);
    failed := rv.Failed();
    noWarnings := rv.SuccessNoWarnings();
    warning := rv.GetWarning();
  }

  /** An error returned through FunctionFail reads back unchanged, and the container reports failure. */
  method FailureRoundTrip<R(0), E(0), W>(fail: FunctionFail<E>)
    returns (got: E, failed: bool, success: bool, warning: Option<W>)
    ensures got == fail.error && failed && !success && warning == None
  {
    var rv := new ReturnVal<R, E, W>.FromFail(fail);
    got := rv.Error(Check);
    failed := rv.Failed();
    success := rv.Success();
    warning := rv.GetWarning();
  }

  /**
   * A marker built in place from `args` and returned into a ReturnVal: the
   * container is failed, and its checked `Error()` is the error the
   * constructor builds from those arguments.
   */
  method InPlaceFailureRoundTrip<A, R(0), E(0), W>(construct: A -> E, args: A)
    returns (got: E, failed: bool, success: bool)
    ensures got == construct(args) && failed && !success
  {
    var rv := new ReturnVal<R, E, W>.FromFail(FunctionFailInPlace(construct, args));
    got := rv.Error(Check);
    failed := rv.Failed();
    success := rv.Success();
  }

  /**
   * Destroying N success containers and M failed ones runs the result
   * destructor exactly N times and the error destructor exactly M times.
   */
  method DestroyAll<R(0), E(0), W>(results: seq<R>, errors: seq<E>)
    returns (resultsDestroyed: nat, errorsDestroyed: nat)
    ensures resultsDestroyed == |results| && errorsDestroyed == |errors|
  {
    var tally := new DestructorTally();
    var i := 0;
    while i < |results|
      invariant 0 <= i <= |results|
      invariant tally.resultsDestroyed == i && tally.errorsDestroyed == 0
    {
      var rv := new ReturnVal<R, E, W>.FromResult(results[i]);
      rv.Destruct(tally);
      i := i + 1;
    }
    var j := 0;
    while j < |errors|
      invariant 0 <= j <= |errors|
      invariant tally.resultsDestroyed == |results| && tally.errorsDestroyed == j
    {
      var rv := new ReturnVal<R, E, W>.FromFail(FunctionFail(errors[j]));
      rv.Destruct(tally);
      j := j + 1;
    }
    resultsDestroyed, errorsDestroyed := tally.resultsDestroyed, tally.errorsDestroyed;
  }

  /** A failure carrying the default error reads back "NO REASON PROVIDED". */
  method DefaultErrorRoundTrip<R(0), W>() returns (message: string)
    ensures message == NoReasonMessage
  {
    var rv := new ReturnVal<R, DefaultError, W>.FromFail(FunctionFail(NewDefaultError()));
    var e := rv.Error(Check);
    message := e.message;
  }
}
