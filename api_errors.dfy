/**
 * Error handling: the `APIError` variants, how each is displayed, and
 * `check_status`, which turns an HTTP status code into one of them by
 * matching on the code's three-digit text.
 */
module ApiErrors {
  import opened RustTypes
  import opened Text

  /** An HTTP status code as the HTTP client holds it: always three digits. */
  type StatusCode = c: int | 100 <= c <= 999 witness 200

  datatype APIError =
    | BadRequest(message: string)
    | Unauthorized(message: string)
    | Forbidden(message: string)
    | TooManyRequests(message: string)
    | ServerError(message: string)
    | Unknown

  const BAD_REQUEST_MESSAGE := "Bad request: did you provide API credentials as env values?"
  const UNAUTHORIZED_MESSAGE := "Unauthorized: check your credentials are correct"
  const FORBIDDEN_MESSAGE := "Access forbidden: have you been banned?"
  const TOO_MANY_REQUESTS_MESSAGE := "Too many requests error"
  const SERVER_ERROR_MESSAGE := "Server error: it's not you, it's them"
  const UNKNOWN_MESSAGE := "Unknown error"

  /** The decimal digit character for `d`. */
  function Digit(d: int): (c: char)
    requires 0 <= d <= 9
    ensures '0' <= c <= '9' && c as int - '0' as int == d
  {
    ('0' as int + d) as char
  }

  /** The number three decimal digit characters spell. */
  function DigitsValue(s: string): int
    requires |s| == 3
  {
    100 * (s[0] as int - '0' as int) + 10 * (s[1] as int - '0' as int) + (s[2] as int - '0' as int)
  }

  /** `code.as_str()`: the code as three decimal digits, which spell the code back. */
  function AsStr(code: StatusCode): (s: string)
    ensures |s| == 3
    ensures forall i :: 0 <= i < 3 ==> '0' <= s[i] <= '9'
    ensures DigitsValue(s) == code
  {
    var hundreds, tens, ones := code / 100, code / 10 % 10, code % 10;
    assert code == 100 * hundreds + 10 * tens + ones;
    [Digit(hundreds), Digit(tens), Digit(ones)]
  }

  /** Two codes have the same text only if they are the same code. */
  lemma AsStrInjective(a: StatusCode, b: StatusCode)
    ensures AsStr(a) == AsStr(b) <==> a == b
  {
  }

  /** The text starts with "5" exactly for the codes 500 to 599. */
  lemma StartsWithFiveIffServerRange(code: StatusCode)
    ensures StartsWith(AsStr(code), "5") <==> 500 <= code <= 599
  {
  }

  /** The `Display` text of an error: its carried message, or "Unknown error". */
  function Display(e: APIError): (text: string)
    ensures e.Unknown? ==> text == UNKNOWN_MESSAGE
    ensures !e.Unknown? ==> text == e.message
  {
    match e
    case BadRequest(v) => v
    case Unauthorized(v) => v
    case Forbidden(v) => v
    case TooManyRequests(v) => v
    case ServerError(v) => v
    case Unknown => UNKNOWN_MESSAGE
  }

  /**
   * The match of check_status on the code's text, with the text that selects
   * `TooManyRequests` as a parameter.
   */
  function Classify(code: StatusCode, tooManyRequests: StatusCode): Result<bool, APIError>
  {
    var s := AsStr(code);
    if s == "400" then Err(BadRequest(BAD_REQUEST_MESSAGE))
    else if s == "401" then Err(Unauthorized(UNAUTHORIZED_MESSAGE))
    else if s == "403" then Err(Forbidden(FORBIDDEN_MESSAGE))
    else if s == AsStr(tooManyRequests) then Err(TooManyRequests(TOO_MANY_REQUESTS_MESSAGE))
    else if StartsWith(s, "5") then Err(ServerError(SERVER_ERROR_MESSAGE))
    else Err(Unknown)
  }

  /**
   * check_status as written: never `Ok`; 400, 401 and 403 give BadRequest,
   * Unauthorized and Forbidden, 423 gives TooManyRequests, 500 to 599 give
   * ServerError, and every other code gives Unknown.
   */
  function CheckStatus(code: StatusCode): (r: Result<bool, APIError>)
    ensures r.Err?
    ensures r.error.BadRequest? <==> code == 400
    ensures r.error.Unauthorized? <==> code == 401
    ensures r.error.Forbidden? <==> code == 403
    ensures r.error.TooManyRequests? <==> code == 423
    ensures r.error.ServerError? <==> 500 <= code <= 599
    ensures r.error.Unknown? <==> code !in {400, 401, 403, 423} && !(500 <= code <= 599)
  {
    AsStrInjective(code, 400);
    AsStrInjective(code, 401);
    AsStrInjective(code, 403);
    AsStrInjective(code, 423);
    StartsWithFiveIffServerRange(code);
    Classify(code, 423)
  }

  /**
   * check_status with the Too Many Requests code of the HTTP standard (429);
   * the same mapping otherwise.
   */
  function CheckStatusCorrected(code: StatusCode): (r: Result<bool, APIError>)
    ensures r.Err?
    ensures r.error.BadRequest? <==> code == 400
    ensures r.error.Unauthorized? <==> code == 401
    ensures r.error.Forbidden? <==> code == 403
    ensures r.error.TooManyRequests? <==> code == 429
    ensures r.error.ServerError? <==> 500 <= code <= 599
    ensures r.error.Unknown? <==> code !in {400, 401, 403, 429} && !(500 <= code <= 599)
  {
    AsStrInjective(code, 400);
    AsStrInjective(code, 401);
    AsStrInjective(code, 403);
    AsStrInjective(code, 429);
    StartsWithFiveIffServerRange(code);
    Classify(code, 429)
  }

  /**
   * As written, a 429 Too Many Requests response is reported as an unknown
   * error, and a 423 Locked response as too many requests.
   */
  lemma TooManyRequestsMisclassified()
    ensures CheckStatus(429) == Err(Unknown)
    ensures Display(CheckStatus(429).error) == UNKNOWN_MESSAGE
    ensures CheckStatus(423) == Err(TooManyRequests(TOO_MANY_REQUESTS_MESSAGE))
    ensures CheckStatusCorrected(429) == Err(TooManyRequests(TOO_MANY_REQUESTS_MESSAGE))
  {
  }

  /** An error as check_status builds it: each variant carries the message of its arm. */
  predicate CarriesItsMessage(e: APIError)
  {
    match e
    case BadRequest(m) => m == BAD_REQUEST_MESSAGE
    case Unauthorized(m) => m == UNAUTHORIZED_MESSAGE
    case Forbidden(m) => m == FORBIDDEN_MESSAGE
    case TooManyRequests(m) => m == TOO_MANY_REQUESTS_MESSAGE
    case ServerError(m) => m == SERVER_ERROR_MESSAGE
    case Unknown => true
  }

  /** Every error check_status gives carries the message of its arm. */
  lemma CheckStatusMessages(code: StatusCode)
    ensures CarriesItsMessage(CheckStatus(code).error)
    ensures CarriesItsMessage(CheckStatusCorrected(code).error)
  {
    ClassifyMessages(code, 423);
    ClassifyMessages(code, 429);
  }

  /** The match arms build each error with its own message. */
  lemma ClassifyMessages(code: StatusCode, tooManyRequests: StatusCode)
    ensures Classify(code, tooManyRequests).Err?
    ensures CarriesItsMessage(Classify(code, tooManyRequests).error)
  {
  }

  /**
   * The displayed text tells such errors apart: two of them display the same
   * text exactly when they are the same error.
   */
  lemma DisplayDistinguishesErrors(a: APIError, b: APIError)
    requires CarriesItsMessage(a) && CarriesItsMessage(b)
    ensures Display(a) == Display(b) <==> a == b
  {
    if Display(a) == Display(b) {
      MessagesDistinct();
    }
  }

  /** The six texts differ from one another. */
  lemma MessagesDistinct()
    ensures |{BAD_REQUEST_MESSAGE, UNAUTHORIZED_MESSAGE, FORBIDDEN_MESSAGE,
              TOO_MANY_REQUESTS_MESSAGE, SERVER_ERROR_MESSAGE, UNKNOWN_MESSAGE}| == 6
  {
  }
}
