/**
 * The parts of an HTTP exchange the core looks at: the URL it builds from a
 * configured endpoint, and the outcome of sending a request. Sending is a
 * foreign call, so its outcome is an input of every operation that sends.
 */
module Http {
  import opened Wrappers
  import opened Strings

  /**
   * The outcome of sending one request: the transport failed, or a reply came
   * with a status code, the body as text (None when it could not be read) and
   * the body parsed as the expected JSON shape (or the parse error).
   */
  datatype Reply<J> = SendFailed(reason: string) | Replied(status: nat, text: Option<string>, json: Result<J, string>)

  /** `StatusCode::is_success`: a 2xx status. */
  predicate IsSuccess(status: nat) {
    200 <= status <= 299
  }

  /** The body text of a failed reply, or "" when it could not be read (`unwrap_or_default`). */
  function BodyOrEmpty(text: Option<string>): string {
    text.GetOr("")
  }

  /** `format!("{}{}", endpoint.trim_end_matches('/'), path)`: the endpoint without trailing slashes, then `path`. */
  function EndpointUrl(endpoint: string, path: string): (url: string)
    ensures |url| >= |path| && url[|url| - |path|..] == path
    ensures url[..|url| - |path|] == [] || url[|url| - |path| - 1] != '/'
    ensures StartsWith(endpoint, url[..|url| - |path|])
  {
    TrimEndMatches(endpoint, '/') + path
  }

  /** A trailing slash on the configured endpoint makes no difference to the URL. */
  lemma EndpointSlashIgnored(endpoint: string, path: string)
    ensures EndpointUrl(endpoint + "/", path) == EndpointUrl(endpoint, path)
  {
    TrimEndMatchesAbsorbs(endpoint, '/');
  }
  /** `StatusCode::canonical_reason`: the reason phrase of a registered status code. */
  function CanonicalReason(status: nat): Option<string> {
    match status
    case 100 => Some("Continue")
    case 101 => Some("Switching Protocols")
    case 102 => Some("Processing")
    case 103 => Some("Early Hints")
    case 200 => Some("OK")
    case 201 => Some("Created")
    case 202 => Some("Accepted")
    case 203 => Some("Non Authoritative Information")
    case 204 => Some("No Content")
    case 205 => Some("Reset Content")
    case 206 => Some("Partial Content")
    case 207 => Some("Multi-Status")
    case 208 => Some("Already Reported")
    case 226 => Some("IM Used")
    case 300 => Some("Multiple Choices")
    case 301 => Some("Moved Permanently")
    case 302 => Some("Found")
    case 303 => Some("See Other")
    case 304 => Some("Not Modified")
    case 305 => Some("Use Proxy")
    case 307 => Some("Temporary Redirect")
    case 308 => Some("Permanent Redirect")
    case 400 => Some("Bad Request")
    case 401 => Some("Unauthorized")
    case 402 => Some("Payment Required")
    case 403 => Some("Forbidden")
    case 404 => Some("Not Found")
    case 405 => Some("Method Not Allowed")
    case 406 => Some("Not Acceptable")
    case 407 => Some("Proxy Authentication Required")
    case 408 => Some("Request Timeout")
    case 409 => Some("Conflict")
    case 410 => Some("Gone")
    case 411 => Some("Length Required")
    case 412 => Some("Precondition Failed")
    case 413 => Some("Payload Too Large")
    case 414 => Some("URI Too Long")
    case 415 => Some("Unsupported Media Type")
    case 416 => Some("Range Not Satisfiable")
    case 417 => Some("Expectation Failed")
    case 418 => Some("I'm a teapot")
    case 421 => Some("Misdirected Request")
    case 422 => Some("Unprocessable Entity")
    case 423 => Some("Locked")
    case 424 => Some("Failed Dependency")
    case 425 => Some("Too Early")
    case 426 => Some("Upgrade Required")
    case 428 => Some("Precondition Required")
    case 429 => Some("Too Many Requests")
    case 431 => Some("Request Header Fields Too Large")
    case 451 => Some("Unavailable For Legal Reasons")
    case 500 => Some("Internal Server Error")
    case 501 => Some("Not Implemented")
    case 502 => Some("Bad Gateway")
    case 503 => Some("Service Unavailable")
    case 504 => Some("Gateway Timeout")
    case 505 => Some("HTTP Version Not Supported")
    case 506 => Some("Variant Also Negotiates")
    case 507 => Some("Insufficient Storage")
    case 508 => Some("Loop Detected")
    case 510 => Some("Not Extended")
    case 511 => Some("Network Authentication Required")
    case _ => None
  }

  /**
   * How a `StatusCode` displays (`format!("{}", status)`): the code in decimal,
   * a space, then its reason phrase, or "<unknown status code>" for a code
   * without one.
   */
  function StatusText(status: nat): (t: string)
    ensures |t| >= |NatToString(status)| + 1
    ensures t[..|NatToString(status)| + 1] == NatToString(status) + " "
  {
    NatToString(status) + " " + CanonicalReason(status).GetOr("<unknown status code>")
  }

  /** The displayed status names its code: different codes never display alike. */
  lemma StatusTextInjective(a: nat, b: nat)
    requires StatusText(a) == StatusText(b)
    ensures a == b
  {
    var da, db := NatToString(a), NatToString(b);
    var t := StatusText(a);
    CodeEndsAtSpace(a);
    CodeEndsAtSpace(b);
    assert da == t[..|da|] == db;
    NatToStringInjective(a, b);
  }

  /** The code's digits end at the first space of the displayed status. */
  lemma CodeEndsAtSpace(status: nat)
    ensures StatusText(status)[|NatToString(status)|] == ' '
    ensures forall i :: 0 <= i < |NatToString(status)| ==> StatusText(status)[i] != ' '
  {
    assert forall i :: 0 <= i < |NatToString(status)| ==> StatusText(status)[i] == NatToString(status)[i];
  }

  /** A registered code shows its phrase, an unregistered one the crate's placeholder. */
  lemma StatusTextExamples()
    ensures StatusText(404) == "404 Not Found"
    ensures StatusText(599) == "599 <unknown status code>"
  {
    DecimalOf(404, "404");
    DecimalOf(599, "599");
    ReasonExamples();
    StatusTextOf(404, "404", "Not Found");
    StatusTextOf(599, "599", "<unknown status code>");
    StatusTextSpelled();
  }

  /** The displayed status, from its digits and its phrase. */
  lemma StatusTextOf(status: nat, digits: string, reason: string)
    requires NatToString(status) == digits
    requires CanonicalReason(status).GetOr("<unknown status code>") == reason
    ensures StatusText(status) == digits + " " + reason
  {}

  /** 404 is registered, 599 is not. */
  lemma ReasonExamples()
    ensures CanonicalReason(404) == Some("Not Found")
    ensures CanonicalReason(599) == None
  {}

  /** The two displays above, spelled out. */
  lemma StatusTextSpelled()
    ensures "404" + " " + "Not Found" == "404 Not Found"
    ensures "599" + " " + "<unknown status code>" == "599 <unknown status code>"
  {}

  /** The decimal spelling of a three-digit code. */
  lemma DecimalOf(n: nat, digits: string)
    requires 100 <= n <= 999 && |digits| == 3
    requires digits[0] == DigitChar(n / 100) && digits[1] == DigitChar(n / 10 % 10) && digits[2] == DigitChar(n % 10)
    ensures NatToString(n) == digits
  {
    assert NatToString(n / 100) == [digits[0]];
    assert NatToString(n / 10) == digits[..2];
  }
}
