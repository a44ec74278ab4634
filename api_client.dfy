/**
 * The API client (src/api_client.py): resolves the endpoint through the
 * configuration, builds the request and hands it to the transport. The
 * client's only state is its configuration, set once when it is created.
 */
module ApiClient {
  import opened Wrappers
  import Strings
  import opened Http
  import opened Configuration

  /** Every request is sent with `timeout=10`. */
  const RequestTimeout := 10

  datatype Client = Client(config: Config)

  /** What `request` does: return the response, or raise the KeyError of resolution or the transport's exception. */
  datatype CallResult =
    | Responded(response: Response)
    | ResolutionFailed(resolveError: ResolveError)
    | RequestFailed(transportError: TransportError)

  /**
   * The request `request` hands to the transport: method upper-cased, the
   * resolved URL, and query parameters, JSON body and headers passed through
   * as given, with the fixed timeout. A resolution error means there is no
   * request at all.
   */
  function BuildRequest(
    client: Client, verb: string, endpointName: string,
    params: Option<map<string, string>>, payload: Option<Json>, headers: Option<map<string, string>>,
    pathParams: map<string, string>): (r: Result<HttpRequest, ResolveError>)
    requires TemplateOk(client.config, endpointName)
    ensures GetEndpoint(client.config, endpointName, pathParams).Err? ==>
      r == Err(GetEndpoint(client.config, endpointName, pathParams).error)
    ensures GetEndpoint(client.config, endpointName, pathParams).Ok? ==>
      && r.Ok?
      && r.value.url == GetEndpoint(client.config, endpointName, pathParams).value
      && r.value.verb == Strings.Upper(verb)
      && r.value.params == params && r.value.json == payload && r.value.headers == headers
      && r.value.timeout == RequestTimeout
  {
    match GetEndpoint(client.config, endpointName, pathParams)
    case Err(e) => Err(e)
    case Ok(url) => Ok(HttpRequest(Strings.Upper(verb), url, params, payload, headers, RequestTimeout))
  }

  /** Hands a request to the transport and returns what it gives back, unchanged, whatever the status. */
  function Send(request: HttpRequest, transport: Transport): (r: CallResult)
    ensures transport(request).Received? ==> r == Responded(transport(request).response)
    ensures transport(request).TransportFailed? ==> r == RequestFailed(transport(request).error)
  {
    match transport(request)
    case Received(response) => Responded(response)
    case TransportFailed(e) => RequestFailed(e)
  }

  /**
   * `APIClient.request`: the URL is resolved before anything is sent, so a
   * resolution error reaches the caller and the transport is never consulted.
   */
  function Request(
    client: Client, verb: string, endpointName: string,
    params: Option<map<string, string>>, payload: Option<Json>, headers: Option<map<string, string>>,
    pathParams: map<string, string>, transport: Transport): (r: CallResult)
    requires TemplateOk(client.config, endpointName)
    ensures r.ResolutionFailed? <==> GetEndpoint(client.config, endpointName, pathParams).Err?
    ensures r.ResolutionFailed? ==> r.resolveError == GetEndpoint(client.config, endpointName, pathParams).error
    ensures GetEndpoint(client.config, endpointName, pathParams).Ok? ==>
      r == Send(HttpRequest(Strings.Upper(verb), GetEndpoint(client.config, endpointName, pathParams).value,
        params, payload, headers, RequestTimeout), transport)
  {
    match BuildRequest(client, verb, endpointName, params, payload, headers, pathParams)
    case Err(e) => ResolutionFailed(e)
    case Ok(request) => Send(request, transport)
  }

  /** When resolution fails, the result does not depend on the transport: nothing was sent. */
  lemma ResolutionFailureSendsNothing(
    client: Client, verb: string, endpointName: string,
    params: Option<map<string, string>>, payload: Option<Json>, headers: Option<map<string, string>>,
    pathParams: map<string, string>, t1: Transport, t2: Transport)
    requires TemplateOk(client.config, endpointName)
    requires GetEndpoint(client.config, endpointName, pathParams).Err?
    ensures Request(client, verb, endpointName, params, payload, headers, pathParams, t1)
         == Request(client, verb, endpointName, params, payload, headers, pathParams, t2)
  {
  }

  /** What a verb helper returns when its request is `request` once the URL is known. */
  function SendResolved(resolved: Result<string, ResolveError>, request: string -> HttpRequest, transport: Transport): CallResult {
    match resolved
    case Err(e) => ResolutionFailed(e)
    case Ok(url) => Send(request(url), transport)
  }

  /** `APIClient.get`: method GET, query parameters and headers forwarded, no JSON body. */
  function Get(
    client: Client, endpointName: string, params: Option<map<string, string>>,
    headers: Option<map<string, string>>, pathParams: map<string, string>, transport: Transport): (r: CallResult)
    requires TemplateOk(client.config, endpointName)
    ensures r == SendResolved(GetEndpoint(client.config, endpointName, pathParams),
      url => HttpRequest("GET", url, params, None, headers, RequestTimeout), transport)
  {
    assert Strings.Upper("GET") == "GET";
    Request(client, "GET", endpointName, params, None, headers, pathParams, transport)
  }

  /** `APIClient.post`: method POST, the payload as JSON body, no query parameters. */
  function Post(
    client: Client, endpointName: string, payload: Option<Json>,
    headers: Option<map<string, string>>, pathParams: map<string, string>, transport: Transport): (r: CallResult)
    requires TemplateOk(client.config, endpointName)
    ensures r == SendResolved(GetEndpoint(client.config, endpointName, pathParams),
      url => HttpRequest("POST", url, None, payload, headers, RequestTimeout), transport)
  {
    assert Strings.Upper("POST") == "POST";
    Request(client, "POST", endpointName, None, payload, headers, pathParams, transport)
  }

  /** `APIClient.put`: method PUT, the payload as JSON body, no query parameters. */
  function Put(
    client: Client, endpointName: string, payload: Option<Json>,
    headers: Option<map<string, string>>, pathParams: map<string, string>, transport: Transport): (r: CallResult)
    requires TemplateOk(client.config, endpointName)
    ensures r == SendResolved(GetEndpoint(client.config, endpointName, pathParams),
      url => HttpRequest("PUT", url, None, payload, headers, RequestTimeout), transport)
  {
    assert Strings.Upper("PUT") == "PUT";
    Request(client, "PUT", endpointName, None, payload, headers, pathParams, transport)
  }

  /** `APIClient.delete`: method DELETE, neither query parameters nor a body. */
  function Delete(
    client: Client, endpointName: string,
    headers: Option<map<string, string>>, pathParams: map<string, string>, transport: Transport): (r: CallResult)
    requires TemplateOk(client.config, endpointName)
    ensures r == SendResolved(GetEndpoint(client.config, endpointName, pathParams),
      url => HttpRequest("DELETE", url, None, None, headers, RequestTimeout), transport)
  {
    assert Strings.Upper("DELETE") == "DELETE";
    Request(client, "DELETE", endpointName, None, None, headers, pathParams, transport)
  }
}
