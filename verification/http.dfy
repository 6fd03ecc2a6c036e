/** The part of HTTP the scraper's fetch logic looks at: status codes, the two status
    classes it tests, how a status is printed, and what one GET request yields. */
module Http {

  /** reqwest's `StatusCode` holds a three-digit code, 100 to 999. */
  type StatusCode = c: int | 100 <= c <= 999 witness 200

  /** `StatusCode::OK`. */
  const OK: StatusCode := 200

  /** `StatusCode::is_success`: the 2xx class. */
  predicate IsSuccess(code: StatusCode) { 200 <= code <= 299 }

  /** `StatusCode::is_server_error`: the 5xx class. */
  predicate IsServerError(code: StatusCode) { 500 <= code <= 599 }

  /** What reading a response body with `.text()` gives. */
  datatype BodyRead = Text(text: string) | ReadFailed(message: string)

  /** What one GET request yields, as the transport reports it: either no response
      at all (connection refused, timeout, ...) with the transport's error message,
      or a response with its status code, the reason phrase the http crate prints
      after the code ("Service Unavailable" for 503), and what reading its body
      would give. */
  datatype Outcome =
    | TransportFailed(message: string)
    | Response(status: StatusCode, reason: string, body: BodyRead)

  predicate IsDigit(c: char) { '0' <= c <= '9' }

  function DigitChar(d: int): (c: char)
    requires 0 <= d <= 9
    ensures IsDigit(c) && c as int - '0' as int == d
  {
    ('0' as int + d) as char
  }

  /** The number a string of decimal digits denotes. */
  function DecimalValue(s: string): (n: nat)
    requires forall i :: 0 <= i < |s| ==> IsDigit(s[i])
  {
    if s == [] then 0
    else
      assert IsDigit(s[|s| - 1]);
      10 * DecimalValue(s[..|s| - 1]) + (s[|s| - 1] as int - '0' as int)
  }

  /** The code of a status written in decimal, as its `Display` prints it. */
  function StatusDigits(code: StatusCode): (s: string)
    ensures |s| == 3
    ensures forall i :: 0 <= i < |s| ==> IsDigit(s[i])
    ensures DecimalValue(s) == code
  {
    var s := [DigitChar(code / 100), DigitChar(code / 10 % 10), DigitChar(code % 10)];
    assert s[..2][..1] == [s[0]];
    assert DecimalValue(s[..2][..1]) == code / 100;
    assert DecimalValue(s[..2]) == 10 * (code / 100) + code / 10 % 10;
    s
  }

  /** `StatusCode`'s `Display`: the three digits, a space, then the reason phrase. */
  function DisplayStatus(code: StatusCode, reason: string): string {
    StatusDigits(code) + " " + reason
  }

  /** The message the scraper builds for a response whose status it rejects:
      `format!("HTTP error: {}", status)`. */
  function HttpErrorMessage(code: StatusCode, reason: string): string {
    "HTTP error: " + DisplayStatus(code, reason)
  }

  /** The message begins with "HTTP error: " followed by the status code in decimal,
      so a reader of the message can recover the code from it. */
  lemma HttpErrorMessageNamesStatus(code: StatusCode, reason: string)
    ensures var m := HttpErrorMessage(code, reason);
      && |m| == 16 + |reason|
      && m[..12] == "HTTP error: "
      && (forall i :: 12 <= i < 15 ==> IsDigit(m[i]))
      && DecimalValue(m[12..15]) == code
      && m[15] == ' '
      && m[16..] == reason
  {
    var m := HttpErrorMessage(code, reason);
    assert m[12..15] == StatusDigits(code);
  }

  /** Two rejected responses give the same message only when they have the same
      status and the same reason phrase. */
  lemma HttpErrorMessageInjective(c1: StatusCode, r1: string, c2: StatusCode, r2: string)
    requires HttpErrorMessage(c1, r1) == HttpErrorMessage(c2, r2)
    ensures c1 == c2 && r1 == r2
  {
    HttpErrorMessageNamesStatus(c1, r1);
    HttpErrorMessageNamesStatus(c2, r2);
  }
}
