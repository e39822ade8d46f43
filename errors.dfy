/**
 * The error values of the library (packages/core/src/errors.ts; src/errors.ts
 * is the same text without Timeout3rdPartyError) and the shapes in which a
 * rejection reaches the orchestrators.
 */
module Errors {
  import opened Common

  /** Which class of the ResponseError hierarchy a value was built by. */
  datatype ErrorKind = Base | Cert | Network | Timeout3rdParty

  /** A ResponseError instance: its class, `status` and `message`. */
  datatype ResponseError = ResponseError(kind: ErrorKind, status: int, message: string)

  /** The `code` and `message` fields read from a rejection reason (`reason?.code`, `reason?.message`). */
  datatype Reason = Reason(code: Option<string>, message: Option<string>)

  /** What an operation throws: one of the library's own errors, or a reason passed on unchanged. */
  datatype Thrown = Raised(error: ResponseError) | Raw(reason: Reason)

  const CERT_MESSAGE := "ERR_CERT_AUTHORITY_INVALID"
  const NETWORK_MESSAGE := "NETWORK ERROR"
  const TIMEOUT_MESSAGE := "Timeout when waiting for 3rd party check iframe message."

  /** `new ResponseError({ status, message })`: both fields are copied as given. */
  function NewResponseError(status: int, message: string): ResponseError {
    ResponseError(Base, status, message)
  }

  /** `new CertError()` */
  function CertError(): ResponseError {
    ResponseError(Cert, 0, CERT_MESSAGE)
  }

  /** `new NetworkError(message)`: the default replaces only an undefined message (`??`). */
  function NetworkError(message: Option<string>): ResponseError {
    ResponseError(Network, 0, message.GetOr(NETWORK_MESSAGE))
  }

  /** `new Timeout3rdPartyError(message)` */
  function Timeout3rdPartyError(message: Option<string>): ResponseError {
    ResponseError(Timeout3rdParty, 0, message.GetOr(TIMEOUT_MESSAGE))
  }

  /** `throw new Error(message)`: a plain Error has a message and no code. */
  function PlainError(message: string): Thrown {
    Raw(Reason(None, Some(message)))
  }

  /** Decimal rendering of a number in a template literal. */
  function DecimalString(n: int): (s: string)
    ensures |s| > 0
    decreases if n < 0 then 1 - n else n
  {
    if n < 0 then "-" + DecimalString(-n)
    else if n < 10 then [Digit(n)]
    else DecimalString(n / 10) + [Digit(n % 10)]
  }

  function Digit(d: int): char
    requires 0 <= d < 10
  {
    "0123456789"[d]
  }

  /** `ResponseError.toString`: a `Status N: ` prefix when the status is truthy (non-zero). */
  function ToString(e: ResponseError): string {
    (if e.status != 0 then "Status " + DecimalString(e.status) + ": " else "") + e.message
  }

  /** The prefix appears exactly when the status is non-zero, and the message always ends the text. */
  lemma ToStringPrefixIff(e: ResponseError)
    ensures ToString(e) == e.message <==> e.status == 0
    ensures e.status != 0 ==> ToString(e) == "Status " + DecimalString(e.status) + ": " + e.message
    ensures |ToString(e)| >= |e.message| && ToString(e)[|ToString(e)| - |e.message|..] == e.message
  {
    if e.status != 0 {
      assert |ToString(e)| > |e.message|;
    }
  }

  /** Every subclass has status 0, so its text is its message alone. */
  lemma SubclassesPrintMessage(m: Option<string>)
    ensures ToString(CertError()) == CERT_MESSAGE
    ensures ToString(NetworkError(m)) == NetworkError(m).message
    ensures ToString(Timeout3rdPartyError(m)) == Timeout3rdPartyError(m).message
  {
  }

  /** The default message replaces `undefined` only: an empty message is kept. */
  lemma DefaultsOnlyForUndefined(m: string)
    ensures NetworkError(Some(m)).message == m && NetworkError(None).message == NETWORK_MESSAGE
    ensures Timeout3rdPartyError(Some(m)).message == m && Timeout3rdPartyError(None).message == TIMEOUT_MESSAGE
    ensures NetworkError(Some("")).message == ""
  {
  }
}
