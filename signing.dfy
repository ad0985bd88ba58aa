/**
  The authentication headers both REST managers send. The signature is an
  HMAC-SHA256, under the API secret, of the timestamp, the API key, the receive
  window and the parameter text, concatenated; the exchange rebuilds that text from
  the headers to check it. HMAC-SHA256 and the clock are parameters.
 */
module Signing {
  import opened Common

  const RecvWindow := 5000

  const ApiKeyHeader := "X-BAPI-API-KEY"
  const SignHeader := "X-BAPI-SIGN"
  const SignTypeHeader := "X-BAPI-SIGN-TYPE"
  const TimestampHeader := "X-BAPI-TIMESTAMP"
  const RecvWindowHeader := "X-BAPI-RECV-WINDOW"
  const ContentTypeHeader := "Content-Type"

  /** `str(self.recv_window)` */
  lemma RecvWindowText()
    ensures IntToString(RecvWindow) == "5000"
  {
    assert NatToString(5) == "5";
    assert NatToString(50) == "50";
    assert NatToString(500) == "500";
  }

  // ---------------------------------------------------------------------------
  // The string to sign as the order manager builds it

  /** The two kinds of value Python's `+` meets when the string to sign is built. */
  datatype PyValue = PyStr(s: string) | PyInt(n: int)

  /** Python's `+`: concatenation of two strings, sum of two ints, `TypeError` for a mix. */
  function PyAdd(a: Outcome<PyValue>, b: PyValue): (r: Outcome<PyValue>)
    ensures a.Returned? && a.value.PyStr? && b.PyStr? ==> r == Returned(PyStr(a.value.s + b.s))
    ensures a.Returned? && a.value.PyInt? && b.PyInt? ==> r == Returned(PyInt(a.value.n + b.n))
    ensures r.Raised? <==> a.Raised? || a.value.PyStr? != b.PyStr?
  {
    match a
    case Raised => Raised
    case Returned(x) =>
      match (x, b)
      case (PyStr(s), PyStr(t)) => Returned(PyStr(s + t))
      case (PyInt(m), PyInt(n)) => Returned(PyInt(m + n))
      case _ => Raised
  }

  /**
    `timestamp + self.api_key + self.recv_window + params`, with the int window added
    as it is: adding it to the string raises `TypeError`, whatever the other parts are.
   */
  function PayloadAsWritten(timestamp: string, apiKey: string, recvWindow: int, params: string): (r: Outcome<string>)
    ensures r == Raised
  {
    var prefix := PyAdd(Returned(PyStr(timestamp)), PyStr(apiKey));
    assert prefix == Returned(PyStr(timestamp + apiKey));
    assert PyAdd(prefix, PyInt(recvWindow)).Raised?;
    match PyAdd(PyAdd(prefix, PyInt(recvWindow)), PyStr(params))
    case Returned(PyStr(s)) => Returned(s)
    case _ => Raised
  }

  /** `_get_headers` of the order manager: building the string to sign raises before any header exists. */
  function HeadersAsWritten(sign: string -> string, apiKey: string, now: int, params: string): (r: Outcome<map<string, string>>)
    ensures r == Raised
  {
    match PayloadAsWritten(IntToString(now), apiKey, RecvWindow, params)
    case Raised => Raised
    case Returned(payload) => Returned(HeaderMap(apiKey, sign(payload), IntToString(now)))
  }

  // ---------------------------------------------------------------------------
  // The string to sign with the window written out, as the portfolio manager builds it

  /** `timestamp + self.api_key + str(self.recv_window) + params` */
  function Payload(timestamp: string, apiKey: string, recvWindow: int, params: string): string {
    timestamp + apiKey + IntToString(recvWindow) + params
  }

  function HeaderMap(apiKey: string, signature: string, timestamp: string): map<string, string> {
    map[ApiKeyHeader := apiKey,
        SignHeader := signature,
        SignTypeHeader := "2",
        TimestampHeader := timestamp,
        RecvWindowHeader := IntToString(RecvWindow),
        ContentTypeHeader := "application/json"]
  }

  /**
    `_get_headers(params)` at clock reading `now` (milliseconds), `sign` being the HMAC
    under the API secret. The headers carry everything the exchange needs to rebuild
    the signed text: timestamp, key and window, read back in that order, followed by
    the parameter text, give exactly the text that was signed.
   */
  function Headers(sign: string -> string, apiKey: string, now: int, params: string): (h: map<string, string>)
    ensures TimestampHeader in h && ApiKeyHeader in h && RecvWindowHeader in h && SignHeader in h
    ensures h[SignHeader] == sign(h[TimestampHeader] + h[ApiKeyHeader] + h[RecvWindowHeader] + params)
    ensures h[TimestampHeader] == IntToString(now) && h[ApiKeyHeader] == apiKey
    ensures h[RecvWindowHeader] == "5000"
    ensures h.Keys == {ApiKeyHeader, SignHeader, SignTypeHeader, TimestampHeader, RecvWindowHeader, ContentTypeHeader}
    ensures h[SignTypeHeader] == "2" && h[ContentTypeHeader] == "application/json"
  {
    RecvWindowText();
    HeaderMap(apiKey, sign(Payload(IntToString(now), apiKey, RecvWindow, params)), IntToString(now))
  }
}
