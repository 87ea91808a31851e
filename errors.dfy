/** `ValidationError`, `validateUser` (email checked before age) and
    `safeExecute` (a result, or a default value when the operation throws).
    A thrown error is an `Err` result. */
module Errors {
  import opened Wrappers

  /** An error carrying the name "ValidationError", a message and the field
      at fault. */
  datatype ValidationError = ValidationError(name: string, message: string, field: string)

  const VALIDATION_ERROR_NAME: string := "ValidationError"

  /** `new ValidationError(message, field)` */
  function NewValidationError(message: string, field: string): (e: ValidationError)
    ensures e.name == VALIDATION_ERROR_NAME
    ensures e.message == message && e.field == field
  {
    ValidationError(VALIDATION_ERROR_NAME, message, field)
  }

  /** The two fields `validateUser` reads; `None` is an absent field. */
  datatype UserInput = UserInput(email: Option<string>, age: Option<int>)

  const MIN_AGE: int := 18

  /** `user.email?.includes("@")` */
  predicate HasValidEmail(user: UserInput) {
    user.email.Some? && '@' in user.email.value
  }

  /** `user.age < 18`; an absent age compares as false. */
  predicate IsMinor(user: UserInput) {
    user.age.Some? && user.age.value < MIN_AGE
  }

  function ValidateUser(user: UserInput): (r: Result<bool, ValidationError>)
    ensures r.Ok? <==> HasValidEmail(user) && !IsMinor(user)
    ensures r.Ok? ==> r.value
    ensures !HasValidEmail(user) ==> r == Err(NewValidationError("Invalid email", "email"))
    ensures HasValidEmail(user) && IsMinor(user) ==> r == Err(NewValidationError("Must be 18+", "age"))
  {
    if !HasValidEmail(user) then Err(NewValidationError("Invalid email", "email"))
    else if IsMinor(user) then Err(NewValidationError("Must be 18+", "age"))
    else Ok(true)
  }

  /** The email check comes first: a bad email wins over a bad age. */
  lemma EmailCheckedFirst(email: Option<string>, age: int)
    requires email.None? || '@' !in email.value
    requires age < MIN_AGE
    ensures ValidateUser(UserInput(email, Some(age))).Err?
    ensures ValidateUser(UserInput(email, Some(age))).error.field == "email"
  {
  }

  /** Exactly 18 passes, and so does a user with no age at all. */
  lemma BoundaryAgesPass(email: string)
    requires '@' in email
    ensures ValidateUser(UserInput(Some(email), Some(MIN_AGE))) == Ok(true)
    ensures ValidateUser(UserInput(Some(email), None)) == Ok(true)
  {
  }

  // Stands for the TypeError the engine throws; its wording is not modelled.
  const MESSAGE_OF_NULLISH: string := "TypeError: cannot read 'message' of a null or undefined error"

  /** `safeExecute(fn, defaultValue)` as written. `outcome` is what
      `await fn()` gives: a value, or a thrown value, where `None` stands
      for a thrown `null` or `undefined` (as with `Promise.reject()`). The
      catch block reads `err.message` before it returns the default; for a
      nullish `err` that read throws, so the wrapper itself rejects. */
  function SafeExecute<T, E>(outcome: Result<T, Option<E>>, defaultValue: T): (r: Result<T, string>)
    ensures r.Err? <==> outcome.Err? && outcome.error.None?
    ensures r.Err? ==> r.error == MESSAGE_OF_NULLISH
    ensures outcome.Ok? ==> r == Ok(outcome.value)
    ensures outcome.Err? && outcome.error.Some? ==> r == Ok(defaultValue)
  {
    match outcome
    case Ok(v) => Ok(v)
    case Err(thrown) => if thrown.None? then Err(MESSAGE_OF_NULLISH) else Ok(defaultValue)
  }

  /** `safeExecute(fn)` with the default `defaultValue = null`: `None`
      stands for null. */
  function SafeExecuteOrNull<T, E>(outcome: Result<T, Option<E>>): (r: Result<Option<T>, string>)
    ensures r.Err? <==> outcome.Err? && outcome.error.None?
    ensures outcome.Ok? ==> r == Ok(Some(outcome.value))
    ensures outcome.Err? && outcome.error.Some? ==> r == Ok(None)
  {
    SafeExecute(match outcome case Ok(v) => Ok(Some(v)) case Err(e) => Err(e), None)
  }

  /** A rejection without a reason escapes the wrapper that is meant to
      absorb every failure. */
  lemma NullishRejectionEscapes(defaultValue: int)
    ensures SafeExecute<int, string>(Err(None), defaultValue) == Err(MESSAGE_OF_NULLISH)
    ensures SafeExecuteOrNull<int, string>(Err(None)).Err?
  {
  }

  /** The wrapper as evidently intended, reading `err?.message`: it never
      rejects, gives the value of a successful call and the default for any
      thrown value, and agrees with `SafeExecute` wherever that settles. */
  function SafeExecuteGuarded<T, E>(outcome: Result<T, Option<E>>, defaultValue: T): (r: T)
    ensures outcome.Ok? ==> r == outcome.value
    ensures outcome.Err? ==> r == defaultValue
    ensures SafeExecute(outcome, defaultValue).Ok? ==> r == SafeExecute(outcome, defaultValue).value
  {
    match outcome
    case Ok(v) => v
    case Err(_) => defaultValue
  }
}
