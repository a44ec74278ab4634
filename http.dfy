/**
 * The values that cross the HTTP boundary. The transport itself (the
 * `requests` library) is an oracle: a function from the request it is given
 * to the response it returns or the RequestException it raises.
 */
module Http {
  import opened Wrappers

  /** A JSON document as YAML payloads and decoded response bodies hold it. */
  datatype Json =
    | JNull
    | JBool(b: bool)
    | JNum(n: int)
    | JStr(s: string)
    | JArr(items: seq<Json>)
    | JObj(fields: map<string, Json>)

  /** The keyword arguments of one `requests.request` call. */
  datatype HttpRequest = HttpRequest(
    verb: string,
    url: string,
    params: Option<map<string, string>>,
    json: Option<Json>,
    headers: Option<map<string, string>>,
    timeout: int)

  /** The outcome of `response.json()`: the decoded document, or the exception it raises. */
  datatype Body = Decoded(value: Json) | Undecodable

  /** A received response: status code, the Content-Type header if present, and its body. */
  datatype Response = Response(status: int, contentType: Option<string>, body: Body)

  /** A RequestException: connection error, timeout, malformed response. */
  datatype TransportError = TransportError(description: string)

  datatype Exchange = Received(response: Response) | TransportFailed(error: TransportError)

  type Transport = HttpRequest -> Exchange
}
