/**
 * The SDK's exceptions as one datatype. `DittofeedException` is built only
 * through six named factories, each stamping a fixed message prefix and a
 * code; `ValidationException` carries a field-to-messages error bag. The
 * remaining cases are PHP's own exceptions that the core raises or lets through.
 */
module Errors {
  import opened Basics

  /** Which `DittofeedException` factory produced an error. */
  datatype Kind = ApiKind | ConfigurationKind | ValidationKind | NetworkKind | AuthenticationKind | RateLimitKind

  datatype Error =
    | Dittofeed(kind: Kind, message: string, code: int)
    | Validation(message: string, errors: map<string, seq<string>>)
    | InvalidArgument(message: string)
    | Runtime(message: string)
    | TypeError(message: string)

  /** A computation that either yields a value or raises one of the errors above. */
  datatype Result<+T> = Ok(value: T) | Err(error: Error) {

    predicate IsFailure() {
      Err?
    }

    function PropagateFailure<U>(): Result<U>
      requires Err?
    {
      Err(error)
    }

    function Extract(): T
      requires Ok?
    {
      value
    }
  }

  /* ---------- DittofeedException ---------- */

  /** The fixed message prefix each factory prepends. */
  function Prefix(k: Kind): string {
    match k
    case ApiKind => "Dittofeed API Error: "
    case ConfigurationKind => "Dittofeed Configuration Error: "
    case ValidationKind => "Dittofeed Validation Error: "
    case NetworkKind => "Dittofeed Network Error: "
    case AuthenticationKind => "Dittofeed Authentication Error: "
    case RateLimitKind => "Dittofeed Rate Limit Error: "
  }

  const DefaultAuthenticationMessage := "Invalid or missing API key"
  const DefaultRateLimitMessage := "Rate limit exceeded"

  /** `DittofeedException::apiError($message, $statusCode)`. */
  function ApiError(message: string, status: int): (e: Error)
    ensures e.Dittofeed? && e.kind == ApiKind && e.code == status
    ensures e.message == Prefix(ApiKind) + message
  {
    Dittofeed(ApiKind, Prefix(ApiKind) + message, status)
  }

  /** `DittofeedException::configurationError($message)`. */
  function ConfigurationError(message: string): (e: Error)
    ensures e.Dittofeed? && e.kind == ConfigurationKind && e.code == 0
    ensures e.message == Prefix(ConfigurationKind) + message
  {
    Dittofeed(ConfigurationKind, Prefix(ConfigurationKind) + message, 0)
  }

  /** `DittofeedException::validationError($message)`. */
  function ValidationError(message: string): (e: Error)
    ensures e.Dittofeed? && e.kind == ValidationKind && e.code == 0
    ensures e.message == Prefix(ValidationKind) + message
  {
    Dittofeed(ValidationKind, Prefix(ValidationKind) + message, 0)
  }

  /** `DittofeedException::networkError($message)`. */
  function NetworkError(message: string): (e: Error)
    ensures e.Dittofeed? && e.kind == NetworkKind && e.code == 0
    ensures e.message == Prefix(NetworkKind) + message
  {
    Dittofeed(NetworkKind, Prefix(NetworkKind) + message, 0)
  }

  /** `DittofeedException::authenticationError($message = 'Invalid or missing API key')`;
      `None` stands for a call without the argument. */
  function AuthenticationError(message: Option<string>): (e: Error)
    ensures e.Dittofeed? && e.kind == AuthenticationKind && e.code == 401
    ensures e.message == Prefix(AuthenticationKind) + message.GetOr(DefaultAuthenticationMessage)
  {
    Dittofeed(AuthenticationKind, Prefix(AuthenticationKind) + message.GetOr(DefaultAuthenticationMessage), 401)
  }

  /** `DittofeedException::rateLimitError($message = 'Rate limit exceeded')`. */
  function RateLimitError(message: Option<string>): (e: Error)
    ensures e.Dittofeed? && e.kind == RateLimitKind && e.code == 429
    ensures e.message == Prefix(RateLimitKind) + message.GetOr(DefaultRateLimitMessage)
  {
    Dittofeed(RateLimitKind, Prefix(RateLimitKind) + message.GetOr(DefaultRateLimitMessage), 429)
  }

  /** The factory `k` applied to an explicit `detail` message (and, for API
      errors, the status). */
  function Raise(k: Kind, detail: string, status: int): Error {
    match k
    case ApiKind => ApiError(detail, status)
    case ConfigurationKind => ConfigurationError(detail)
    case ValidationKind => ValidationError(detail)
    case NetworkKind => NetworkError(detail)
    case AuthenticationKind => AuthenticationError(Some(detail))
    case RateLimitKind => RateLimitError(Some(detail))
  }

  /** The code each factory stamps: the status for API errors, 401 and 429 for
      authentication and rate limiting, 0 otherwise. */
  function CodeOf(k: Kind, status: int): int {
    match k
    case ApiKind => status
    case AuthenticationKind => 401
    case RateLimitKind => 429
    case _ => 0
  }

  /** Reads the factory back from a message by its prefix. */
  function KindOfMessage(message: string): Option<Kind> {
    if Prefix(ApiKind) <= message then Some(ApiKind)
    else if Prefix(ConfigurationKind) <= message then Some(ConfigurationKind)
    else if Prefix(ValidationKind) <= message then Some(ValidationKind)
    else if Prefix(NetworkKind) <= message then Some(NetworkKind)
    else if Prefix(AuthenticationKind) <= message then Some(AuthenticationKind)
    else if Prefix(RateLimitKind) <= message then Some(RateLimitKind)
    else None
  }

  lemma PrefixesDiffer(k: Kind, j: Kind, rest: string)
    requires k != j
    ensures !(Prefix(j) <= Prefix(k) + rest)
  {
    var p, q := Prefix(k), Prefix(j);
    assert p[10] != q[10] || p[11] != q[11];
    assert (p + rest)[10] == p[10] && (p + rest)[11] == p[11];
  }

  /** Every factory's message identifies the factory and carries the caller's
      detail unchanged after the prefix; its code is the one the factory promises. */
  lemma FactoryMessageIdentifiesKind(k: Kind, detail: string, status: int)
    ensures KindOfMessage(Raise(k, detail, status).message) == Some(k)
    ensures Raise(k, detail, status).message[|Prefix(k)|..] == detail
    ensures Raise(k, detail, status).code == CodeOf(k, status)
  {
    var m := Raise(k, detail, status).message;
    assert m == Prefix(k) + detail;
    forall j | j != k
      ensures !(Prefix(j) <= m)
    {
      PrefixesDiffer(k, j, detail);
    }
  }

  /* ---------- ValidationException ---------- */

  function RequiredMessage(field: string): string {
    "The " + field + " field is required."
  }

  /** `ValidationException::missingRequired($field)`. */
  function MissingRequired(field: string): (e: Error)
    ensures e.Validation?
    ensures e.errors == map[field := [e.message]]
    ensures |e.message| == |field| + 23
    ensures e.message[..4] == "The " && e.message[4..4 + |field|] == field
    ensures e.message[4 + |field|..] == " field is required."
  {
    Validation(RequiredMessage(field), map[field := [RequiredMessage(field)]])
  }

  /** `ValidationException::invalidType($field, $expectedType)`. */
  function InvalidType(field: string, expected: string): (e: Error)
    ensures e.Validation?
    ensures e.errors.Keys == {field} && e.errors[field] == [e.message]
    ensures e.message == "The " + field + " field must be of type " + expected + "."
  {
    var m := "The " + field + " field must be of type " + expected + ".";
    Validation(m, map[field := [m]])
  }

  /** `ValidationException::multiple($errors)`. */
  function Multiple(errors: map<string, seq<string>>): (e: Error)
    ensures e.Validation? && e.message == "Validation failed."
    ensures e.errors == errors
  {
    Validation("Validation failed.", errors)
  }

  /** `getErrors()`: the error bag exactly as the exception was built with it. */
  function GetErrors(e: Error): (errors: map<string, seq<string>>)
    requires e.Validation?
  {
    e.errors
  }

  /** The bag read back through `getErrors` is the one each factory was given. */
  lemma GetErrorsReturnsConstructed(field: string, expected: string, bag: map<string, seq<string>>)
    ensures GetErrors(MissingRequired(field)) == map[field := [RequiredMessage(field)]]
    ensures GetErrors(InvalidType(field, expected)).Keys == {field}
    ensures GetErrors(Multiple(bag)) == bag
  {
  }
}
