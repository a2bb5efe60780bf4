/**
  The `useLoading` composable: the `data`, `loading` and `error` refs around one
  async function. `execute` is split at its `await`: `Start` runs before the
  function is invoked and `Settle` once it has returned or thrown, so that two
  overlapping calls can be written as two starts followed by two settles.
*/
module UseLoading {
  import opened Wrappers
  import opened FrontendErrors

  class Loading<T> {
    var data: Option<T>
    var loading: bool
    var error: Option<Thrown>
    /** The `customMessage` option passed on to `handleError` ("" when none). */
    const customMessage: string

    /** `error` holds an `ApiError` or `null`. */
    ghost predicate Valid()
      reads this`error
    {
      error.Some? ==> IsApiError(error.value)
    }

    /** `useLoading(fn, {initialLoading, customMessage})`. */
    constructor(initialLoading: Option<bool>, customMessage: string)
      ensures data.None? && error.None? && loading == initialLoading.GetOr(false)
      ensures this.customMessage == customMessage
      ensures Valid()
    {
      data := None;
      loading := initialLoading.GetOr(false);
      error := None;
      this.customMessage := customMessage;
    }

    /** The part of `execute` before the `await`. */
    method Start()
      modifies this`loading, this`error
      ensures loading && error.None?
      ensures Valid()
    {
      loading := true;
      error := None;
    }

    /** The part of `execute` after the `await`, including its `finally`. */
    method Settle(outcome: Completion<T>) returns (r: Option<T>)
      requires Valid()
      modifies this`data, this`error, this`loading
      ensures !loading
      ensures outcome.Returned? ==> data == Some(outcome.value) && r == data && error == old(error)
      ensures outcome.Threw? ==>
        error == Some(HandleError(outcome.error, customMessage).apiError) && data == old(data) && r.None?
      ensures Valid()
    {
      match outcome {
        case Returned(result) =>
          data := Some(result);
          r := Some(result);
        case Threw(err) =>
          var apiError := HandleError(err, customMessage).apiError;
          error := Some(apiError);
          r := None;
      }
      loading := false;
    }

    /** `execute()`: the function's result becomes `data` and is returned, or its
        error, normalised, becomes `error` and `null` is returned with `data` kept;
        `loading` is false afterwards either way. */
    method Execute(outcome: Completion<T>) returns (r: Option<T>)
      requires Valid()
      modifies this`data, this`error, this`loading
      ensures !loading && Valid()
      ensures outcome.Returned? ==> data == Some(outcome.value) && r == data && error.None?
      ensures outcome.Threw? ==>
        error == Some(HandleError(outcome.error, customMessage).apiError) && data == old(data) && r.None?
    {
      Start();
      r := Settle(outcome);
    }

    /** `reset()`. */
    method Reset()
      modifies this`data, this`loading, this`error
      ensures data.None? && !loading && error.None? && Valid()
    {
      data := None;
      loading := false;
      error := None;
    }

    /** `setData(value)`: only `data` changes. */
    method SetData(value: Option<T>)
      modifies this`data
      ensures data == value
    {
      data := value;
    }

    /** `setError(err)`: only `error` changes. */
    method SetError(err: Option<Thrown>)
      requires err.Some? ==> IsApiError(err.value)
      modifies this`error
      ensures error == err && Valid()
    {
      error := err;
    }
  }

  /** Two overlapping `execute` calls: the first to settle clears `loading` while the
      other is still pending, and the last to settle decides `data` and `error`. */
  method OverlappingExecutes(first: Completion<int>, second: Completion<int>) {
    var state := new Loading<int>(None, "");
    state.Start();
    state.Start();
    var r1 := state.Settle(first);
    assert !state.loading;
    var r2 := state.Settle(second);
    assert second.Returned? ==> state.data == Some(second.value);
  }
}
