/**
 * The error taxonomy of the backend: `AppError` and its subclasses, the
 * `fail`/`error` status derived from the status code, and `handleError`, which
 * projects any thrown error onto the JSON shape sent to the client.
 */
module Errors {
  import opened Wrappers
  import opened Text

  /** `status` of an AppError: 'fail' for client errors, 'error' otherwise. */
  datatype Status = Fail | Error

  /** The `errors` dictionary of a ValidationError: field name to messages. */
  type ErrorMap = map<string, seq<string>>

  /** Which constructor built an error (`Base` is `new AppError(...)` itself). */
  datatype ErrorClass =
    | Base | BadRequest | Unauthorized | Forbidden | NotFound | Conflict
    | Validation | InternalServer | ServiceUnavailable

  /** An AppError object. `errors` is only carried by a ValidationError; the
      other classes have no such property, modelled as the empty map. */
  datatype AppError = AppError(
    cls: ErrorClass,
    message: string,
    statusCode: int,
    status: Status,
    isOperational: bool,
    errors: ErrorMap)

  /** Anything a service can throw: an AppError, or a plain `Error` (for
      instance `new Error('Template not found')`) with only a message. */
  datatype Thrown = App(err: AppError) | Other(message: string)

  /** The outcome of an operation that may throw. */
  datatype Result<+T> = Ok(value: T) | Err(error: Thrown)

  /** `${statusCode}`.startsWith('4') ? 'fail' : 'error' */
  function StatusFor(statusCode: int): Status
  {
    if IntToString(statusCode)[0] == '4' then Fail else Error
  }

  /** The leading digit of n's decimal text, as a number. */
  function LeadingDigit(n: nat): (d: nat)
    ensures d < 10
  {
    if n < 10 then n else LeadingDigit(n / 10)
  }

  lemma {:induction false} FirstDigit(n: nat)
    ensures NatToString(n)[0] == DigitChar(LeadingDigit(n))
  {
    if n >= 10 {
      FirstDigit(n / 10);
      assert NatToString(n)[0] == NatToString(n / 10)[0];
    }
  }

  /** A number in [4·10^k, 5·10^k) has leading digit 4. */
  lemma {:induction false} LeadingFourInRange(n: nat, k: nat)
    requires 4 * Pow10(k) <= n < 5 * Pow10(k)
    ensures LeadingDigit(n) == 4
  {
    if k > 0 {
      var p := Pow10(k - 1);
      assert Pow10(k) == 10 * p;
      assert 4 * p <= n / 10 < 5 * p;
      LeadingFourInRange(n / 10, k - 1);
    }
  }

  /** A number with leading digit 4 lies in [4·10^k, 5·10^k) for some k. */
  lemma {:induction false} LeadingFourRange(n: nat) returns (k: nat)
    requires LeadingDigit(n) == 4
    ensures 4 * Pow10(k) <= n < 5 * Pow10(k)
  {
    if n < 10 {
      k := 0;
    } else {
      var j := LeadingFourRange(n / 10);
      var p := Pow10(j);
      assert 4 * p <= n / 10 < 5 * p;
      k := j + 1;
      assert Pow10(k) == 10 * p;
    }
  }

  /** The leading digit is 4 exactly when n lies in [4·10^k, 5·10^k) for some k. */
  lemma LeadingFour(n: nat)
    ensures LeadingDigit(n) == 4 <==> exists k: nat :: 4 * Pow10(k) <= n < 5 * Pow10(k)
  {
    if LeadingDigit(n) == 4 {
      var k := LeadingFourRange(n);
    } else {
      forall k: nat | 4 * Pow10(k) <= n < 5 * Pow10(k) ensures false {
        LeadingFourInRange(n, k);
      }
    }
  }

  /** The status is 'fail' exactly when the code lies in [4·10^k, 5·10^k) for
      some k: its decimal text starts with 4. */
  lemma StatusForFail(statusCode: int)
    ensures StatusFor(statusCode) == Fail <==>
      exists k: nat :: 4 * Pow10(k) <= statusCode < 5 * Pow10(k)
  {
    if statusCode >= 0 {
      FirstDigit(statusCode);
      LeadingFour(statusCode);
    } else {
      forall k: nat ensures !(4 * Pow10(k) <= statusCode) { }
    }
  }

  /** For three-digit HTTP codes the rule is the usual client-error range. */
  lemma StatusForHttp(statusCode: int)
    requires 100 <= statusCode <= 999
    ensures StatusFor(statusCode) == Fail <==> 400 <= statusCode <= 499
  {
    StatusForFail(statusCode);
    if 400 <= statusCode <= 499 {
      assert Pow10(2) == 100;
      assert 4 * Pow10(2) <= statusCode < 5 * Pow10(2);
    } else {
      forall k: nat | 4 * Pow10(k) <= statusCode < 5 * Pow10(k)
        ensures false
      {
        if k <= 1 {
          Pow10Monotone(k, 1);
        } else if k >= 3 {
          Pow10Monotone(3, k);
        }
      }
    }
  }

  /** Every error built by the constructors below has these properties. */
  predicate WellFormed(e: AppError)
  {
    && e.status == StatusFor(e.statusCode)
    && e.isOperational
    && (e.cls == Validation ==> e.message == "Validation error" && e.statusCode == 422)
    && (e.cls != Validation ==> e.errors == map[])
  }

  /** `new AppError(message, statusCode)` */
  function NewAppError(message: string, statusCode: int): (e: AppError)
    ensures WellFormed(e) && e.cls == Base
    ensures e.message == message && e.statusCode == statusCode
    ensures 100 <= statusCode <= 999 ==> (e.status == Fail <==> 400 <= statusCode <= 499)
  {
    if 100 <= statusCode <= 999 then StatusForHttp(statusCode); AppError(Base, message, statusCode, StatusFor(statusCode), true, map[])
    else AppError(Base, message, statusCode, StatusFor(statusCode), true, map[])
  }

  /** A subclass constructor: the base constructor with a fixed code. */
  function Subclass(cls: ErrorClass, message: string, statusCode: int): (e: AppError)
    requires cls != Validation
    requires 100 <= statusCode <= 999
    ensures WellFormed(e) && e.cls == cls && e.message == message && e.statusCode == statusCode
    ensures e.status == Fail <==> 400 <= statusCode <= 499
  {
    NewAppError(message, statusCode).(cls := cls)
  }

  function BadRequestError(message: string): (e: AppError)
    ensures WellFormed(e) && e.cls == BadRequest && e.message == message
    ensures e.statusCode == 400 && e.status == Fail
  {
    Subclass(BadRequest, message, 400)
  }

  function UnauthorizedError(message: Option<string>): (e: AppError)
    ensures WellFormed(e) && e.cls == Unauthorized
    ensures e.message == if message.Some? then message.value else "Unauthorized"
    ensures e.statusCode == 401 && e.status == Fail
  {
    Subclass(Unauthorized, message.GetOr("Unauthorized"), 401)
  }

  function ForbiddenError(message: Option<string>): (e: AppError)
    ensures WellFormed(e) && e.cls == Forbidden
    ensures e.message == if message.Some? then message.value else "Forbidden"
    ensures e.statusCode == 403 && e.status == Fail
  {
    Subclass(Forbidden, message.GetOr("Forbidden"), 403)
  }

  function NotFoundError(message: Option<string>): (e: AppError)
    ensures WellFormed(e) && e.cls == NotFound
    ensures e.message == if message.Some? then message.value else "Not found"
    ensures e.statusCode == 404 && e.status == Fail
  {
    Subclass(NotFound, message.GetOr("Not found"), 404)
  }

  function ConflictError(message: string): (e: AppError)
    ensures WellFormed(e) && e.cls == Conflict && e.message == message
    ensures e.statusCode == 409 && e.status == Fail
  {
    Subclass(Conflict, message, 409)
  }

  /** `new ValidationError(errors)`: the message is always 'Validation error'. */
  function ValidationError(errors: ErrorMap): (e: AppError)
    ensures WellFormed(e) && e.cls == Validation && e.errors == errors
    ensures e.message == "Validation error" && e.statusCode == 422 && e.status == Fail
  {
    NewAppError("Validation error", 422).(cls := Validation, errors := errors)
  }

  function InternalServerError(message: Option<string>): (e: AppError)
    ensures WellFormed(e) && e.cls == InternalServer
    ensures e.message == if message.Some? then message.value else "Internal server error"
    ensures e.statusCode == 500 && e.status == Error
  {
    Subclass(InternalServer, message.GetOr("Internal server error"), 500)
  }

  function ServiceUnavailableError(message: Option<string>): (e: AppError)
    ensures WellFormed(e) && e.cls == ServiceUnavailable
    ensures e.message == if message.Some? then message.value else "Service unavailable"
    ensures e.statusCode == 503 && e.status == Error
  {
    Subclass(ServiceUnavailable, message.GetOr("Service unavailable"), 503)
  }

  /** The body `handleError` returns; `errors` is absent unless the error was a
      ValidationError. */
  datatype ErrorResponse = ErrorResponse(
    status: Status,
    statusCode: int,
    message: string,
    errors: Option<ErrorMap>)

  /** `handleError(err)` */
  function HandleError(t: Thrown): (r: ErrorResponse)
    ensures t.App? ==>
      && r.status == t.err.status
      && r.statusCode == t.err.statusCode
      && r.message == t.err.message
      && (r.errors.Some? <==> t.err.cls == Validation)
      && (r.errors.Some? ==> r.errors.value == t.err.errors)
    ensures t.Other? ==> r == ErrorResponse(Error, 500, "Internal server error", None)
  {
    match t
    case App(e) =>
      ErrorResponse(e.status, e.statusCode, e.message,
                    if e.cls == Validation then Some(e.errors) else None)
    case Other(_) => ErrorResponse(Error, 500, "Internal server error", None)
  }

  /** Whatever was thrown, the response's status agrees with its code, so a
      client can rely on either: 'fail' exactly for 4xx. */
  lemma HandleErrorConsistent(t: Thrown)
    requires t.App? ==> WellFormed(t.err) && 100 <= t.err.statusCode <= 999
    ensures 100 <= HandleError(t).statusCode <= 999
    ensures HandleError(t).status == Fail <==> 400 <= HandleError(t).statusCode <= 499
  {
    if t.App? {
      StatusForHttp(t.err.statusCode);
    }
  }
}
