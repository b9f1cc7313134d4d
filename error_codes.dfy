/** Error codes and the translation of nonzero codes into the single fatal
    error of the throwing tier (class `mutex` and `mutex_guard`). */
module ErrorCodes {

  /** errno values the header tests for (Linux numbering). */
  const EBUSY: int := 16
  const EINVAL: int := 22

  /** `fatal_error`: the one exception kind, carrying the raw code. */
  datatype FatalError = FatalError(code: int)
  {
    /** `error_code()`: the code the exception was built from, which alone
        determines the exception. */
    function ErrorCode(): (r: int)
      ensures FatalError(r) == this
    {
      code
    }

    /** `what()`: one fixed message, whatever the code. */
    function What(): (r: string)
      ensures r == "pthread function returned an unexpected error."
    {
      "pthread function returned an unexpected error."
    }
  }

  /** A call of the throwing tier either returns a value or throws
      `fatal_error`. */
  datatype Outcome<R> = Ok(value: R) | Fatal(error: FatalError)

  /** `mutex::check_error`: throws exactly when the code is nonzero, and the
      exception carries that code. */
  function CheckError(code: int): (r: Outcome<()>)
    ensures r.Ok? <==> code == 0
    ensures r.Fatal? ==> r.error.ErrorCode() == code
  {
    if code != 0 then Fatal(FatalError(code)) else Ok(())
  }

  /** The result of `mutex::trylock` for the code pthread_mutex_trylock
      returned: busy is `false`, success is `true`, anything else throws. */
  function TryLockOutcome(code: int): (r: Outcome<bool>)
    ensures r == Ok(false) <==> code == EBUSY
    ensures r == Ok(true) <==> code == 0
    ensures r.Fatal? <==> code != 0 && code != EBUSY
    ensures r.Fatal? ==> r.error == FatalError(code)
  {
    if code == EBUSY then Ok(false)
    else match CheckError(code)
      case Ok(_) => Ok(true)
      case Fatal(e) => Fatal(e)
  }

  /** Outside the busy case, trylock reports errors exactly as check_error
      does, so it never treats a code differently from lock and unlock. */
  lemma TryLockAgreesWithCheckError(code: int)
    requires code != EBUSY
    ensures TryLockOutcome(code).Ok? <==> CheckError(code).Ok?
    ensures TryLockOutcome(code).Fatal? ==> TryLockOutcome(code).error == CheckError(code).error
  {
  }
}
