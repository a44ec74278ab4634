/**
 * The data-driven test (tests/test_sample_api.py): each test-case record is
 * dispatched through the API client and its response checked against the
 * record's expectations. One case evaluates to an outcome; the suite is the
 * sequence of outcomes of the cases in file order.
 */
module ApiTests {
  import opened Wrappers
  import Strings
  import opened Http
  import Configuration
  import ApiClient

  /**
   * One record of the `tests` list. Optional keys are None when absent;
   * `params` is also None when it is null, and so is `payload`: a YAML null
   * payload is Python's None, which `json=None` sends as no body, so a
   * record never holds `Some(JNull)` as its payload.
   */
  datatype TestCase = TestCase(
    name: string,
    httpMethod: string,
    endpoint: string,
    params: Option<map<string, string>>,
    payload: Option<Json>,
    expectedStatus: int,
    expectedKeys: Option<seq<string>>,
    expectedMinLength: Option<int>)

  /** The parsed test-data file; `tests` is None when the key is missing. */
  datatype TestData = TestData(tests: Option<seq<TestCase>>)

  /** The assertion failures, each attributed to the case's name. */
  datatype Failure =
    | StatusMismatch(name: string, expected: int, actual: int)
    | UnparsableJson(name: string)
    | MissingKey(name: string, key: string)
    | NotAList(name: string)
    | TooFewItems(name: string, minimum: int)

  /** Exceptions that escape the test body and end the case as an error. */
  datatype Error =
    | Unresolved(resolveError: Configuration.ResolveError)
    | Unsent(transportError: TransportError)
    | NotIterable(data: Json)

  datatype Outcome = Pass | Fail(failure: Failure) | Skip(reason: string) | Raised(error: Error)

  /** The methods the test dispatches, after lower-casing. */
  const SupportedMethods: set<string> := {"get", "post", "put", "delete"}

  /** `TEST_DATA.get("tests", [])`. */
  function Cases(data: TestData): seq<TestCase> {
    data.tests.GetOr([])
  }

  /** The message argument of the failing `assert` or `pytest.fail`; it always begins with the case's name. */
  function Message(f: Failure): (m: string)
    ensures Strings.StartsWith(m, f.name)
  {
    match f
    case StatusMismatch(n, e, a) => n + " expected status " + Strings.Decimal(e) + " but got " + Strings.Decimal(a)
    case UnparsableJson(n) => n + " failed to parse JSON response"
    case MissingKey(n, k) => n + " missing key '" + k + "' in response"
    case NotAList(n) => n + " expected list response"
    case TooFewItems(n, m) => n + " expected at least " + Strings.Decimal(m) + " items"
  }

  /** A status-mismatch message names both numbers exactly. */
  lemma StatusMessageNamesStatuses(name: string, expected: int, actual: int)
    ensures var m := Message(StatusMismatch(name, expected, actual));
      var e := Strings.Decimal(expected);
      var a := Strings.Decimal(actual);
      var i := |name| + |" expected status "|;
      && m[i..i + |e|] == e && Strings.ParseInt(e) == Some(expected)
      && m[|m| - |a|..] == a && Strings.ParseInt(a) == Some(actual)
  {
    Strings.DecimalRoundTrip(expected);
    Strings.DecimalRoundTrip(actual);
    var e, a := Strings.Decimal(expected), Strings.Decimal(actual);
    var pre := name + " expected status ";
    var m := pre + e + " but got " + a;
    assert |pre| == |name| + |" expected status "|;
    assert m[|pre|..|pre| + |e|] == e;
    assert m[|m| - |a|..] == a;
  }

  /** `test_case.get("params", {}) or {}`. */
  function PathParams(tc: TestCase): map<string, string> {
    tc.params.GetOr(map[])
  }

  /** `response.headers.get("Content-Type", "").startswith("application/json")`. */
  predicate IsJsonResponse(response: Response) {
    Strings.StartsWith(response.contentType.GetOr(""), "application/json")
  }

  /**
   * Python's `key in data` on a decoded document: a key of an object, an
   * element of a list, a substring of a string; None where Python raises
   * TypeError (null, booleans, numbers).
   */
  function KeyIn(key: string, data: Json): (r: Option<bool>)
    ensures data.JObj? ==> r == Some(key in data.fields)
    ensures data.JArr? ==> r == Some(JStr(key) in data.items)
    ensures data.JStr? ==> r == Some(Strings.Contains(data.s, key))
    ensures r.None? <==> data.JNull? || data.JBool? || data.JNum?
  {
    match data
    case JObj(fields) => Some(key in fields)
    case JArr(items) => Some(JStr(key) in items)
    case JStr(s) => Some(Strings.Contains(s, key))
    case _ => None
  }

  /** The loop over `expected_keys`: the first key not in the data fails the case. */
  function CheckKeys(name: string, keys: seq<string>, data: Json): (r: Outcome)
    ensures r == Pass <==> forall i :: 0 <= i < |keys| ==> KeyIn(keys[i], data) == Some(true)
    ensures r.Fail? ==>
      exists i :: 0 <= i < |keys|
        && r.failure == MissingKey(name, keys[i])
        && KeyIn(keys[i], data) == Some(false)
        && forall j :: 0 <= j < i ==> KeyIn(keys[j], data) == Some(true)
    ensures r.Raised? <==> |keys| > 0 && KeyIn(keys[0], data).None?
    ensures r.Raised? ==> r.error == NotIterable(data)
    ensures !r.Skip?
  {
    if keys == [] then Pass
    else match KeyIn(keys[0], data)
      case None => Raised(NotIterable(data))
      case Some(false) => Fail(MissingKey(name, keys[0]))
      case Some(true) =>
        var r := CheckKeys(name, keys[1..], data);
        assert r.Fail? ==>
          exists i :: 1 <= i < |keys|
            && r.failure == MissingKey(name, keys[i])
            && KeyIn(keys[i], data) == Some(false)
            && forall j :: 0 <= j < i ==> KeyIn(keys[j], data) == Some(true)
        by {
          if r.Fail? {
            var i :| 0 <= i < |keys[1..]|
              && r.failure == MissingKey(name, keys[1..][i])
              && KeyIn(keys[1..][i], data) == Some(false)
              && forall j :: 0 <= j < i ==> KeyIn(keys[1..][j], data) == Some(true);
            assert forall j :: 0 <= j < i + 1 ==> KeyIn(keys[j], data) == Some(true) by {
              forall j | 0 <= j < i + 1 ensures KeyIn(keys[j], data) == Some(true) {
                if j > 0 { assert keys[j] == keys[1..][j - 1]; }
              }
            }
          }
        }
        assert (forall i :: 0 <= i < |keys[1..]| ==> KeyIn(keys[1..][i], data) == Some(true)) ==>
          forall i :: 0 <= i < |keys| ==> KeyIn(keys[i], data) == Some(true)
        by {
          if forall i :: 0 <= i < |keys[1..]| ==> KeyIn(keys[1..][i], data) == Some(true) {
            forall i | 0 <= i < |keys| ensures KeyIn(keys[i], data) == Some(true) {
              if i > 0 { assert keys[i] == keys[1..][i - 1]; }
            }
          }
        }
        r
  }

  /** On an object, the keys check passes exactly when every expected key is a key of the object, and never raises. */
  lemma ObjectKeys(name: string, keys: seq<string>, fields: map<string, Json>)
    ensures CheckKeys(name, keys, JObj(fields)) == Pass <==> forall i :: 0 <= i < |keys| ==> keys[i] in fields
    ensures !CheckKeys(name, keys, JObj(fields)).Raised?
  {
    var r := CheckKeys(name, keys, JObj(fields));
    if r == Pass {
      forall i | 0 <= i < |keys| ensures keys[i] in fields {
        assert KeyIn(keys[i], JObj(fields)) == Some(true);
      }
    }
  }

  /** The `isinstance(data, list)` and `len(data) >= expected_min_length` assertions. */
  function CheckMinLength(name: string, minimum: int, data: Json): (r: Outcome)
    ensures r == Pass <==> data.JArr? && |data.items| >= minimum
    ensures !data.JArr? ==> r == Fail(NotAList(name))
    ensures data.JArr? && |data.items| < minimum ==> r == Fail(TooFewItems(name, minimum))
  {
    if !data.JArr? then Fail(NotAList(name))
    else if |data.items| >= minimum then Pass
    else Fail(TooFewItems(name, minimum))
  }

  /** The expected-keys block once it runs: decode, then check the keys. */
  function KeysBlock(name: string, keys: seq<string>, body: Body): Outcome {
    match body
    case Undecodable => Fail(UnparsableJson(name))
    case Decoded(data) => CheckKeys(name, keys, data)
  }

  /** The minimum-length block once it runs: decode, then check the list. */
  function LengthBlock(name: string, minimum: int, body: Body): Outcome {
    match body
    case Undecodable => Fail(UnparsableJson(name))
    case Decoded(data) => CheckMinLength(name, minimum, data)
  }

  /** Every expected key is in the decoded body, if the record lists any. */
  predicate KeysHold(tc: TestCase, body: Body) {
    tc.expectedKeys.Some? ==>
      body.Decoded? && forall i :: 0 <= i < |tc.expectedKeys.value| ==> KeyIn(tc.expectedKeys.value[i], body.value) == Some(true)
  }

  /** The decoded body is a long enough list, if the record sets a minimum. */
  predicate LengthHolds(tc: TestCase, body: Body) {
    tc.expectedMinLength.Some? ==>
      body.Decoded? && body.value.JArr? && |body.value.items| >= tc.expectedMinLength.value
  }

  /**
   * The assertions on a received response, in the order the test makes them:
   * the status first, then the keys, then the length; the first failure ends
   * the case. The JSON checks run only for a JSON Content-Type.
   */
  function CheckResponse(tc: TestCase, response: Response): (r: Outcome)
    ensures response.status != tc.expectedStatus ==>
      r == Fail(StatusMismatch(tc.name, tc.expectedStatus, response.status))
    ensures response.status == tc.expectedStatus && !IsJsonResponse(response) ==> r == Pass
    ensures
      (response.status == tc.expectedStatus && IsJsonResponse(response) && tc.expectedKeys.Some? &&
       KeysBlock(tc.name, tc.expectedKeys.value, response.body) != Pass) ==>
      r == KeysBlock(tc.name, tc.expectedKeys.value, response.body)
    ensures
      (response.status == tc.expectedStatus && IsJsonResponse(response) &&
       (tc.expectedKeys.Some? || tc.expectedMinLength.Some?) && response.body.Undecodable?) ==>
      r == Fail(UnparsableJson(tc.name))
    ensures
      (response.status == tc.expectedStatus && IsJsonResponse(response) && tc.expectedMinLength.Some? &&
       (tc.expectedKeys.None? || KeysBlock(tc.name, tc.expectedKeys.value, response.body) == Pass)) ==>
      r == LengthBlock(tc.name, tc.expectedMinLength.value, response.body)
    ensures r == Pass <==>
      response.status == tc.expectedStatus &&
      (IsJsonResponse(response) ==> KeysHold(tc, response.body) && LengthHolds(tc, response.body))
    ensures !r.Skip?
  {
    if response.status != tc.expectedStatus then Fail(StatusMismatch(tc.name, tc.expectedStatus, response.status))
    else
      var json := IsJsonResponse(response);
      var keys := if tc.expectedKeys.Some? && json then KeysBlock(tc.name, tc.expectedKeys.value, response.body) else Pass;
      if keys != Pass then keys
      else if tc.expectedMinLength.Some? && json then LengthBlock(tc.name, tc.expectedMinLength.value, response.body)
      else Pass
  }

  /**
   * The endpoint's template is one the `str.format` subset describes, for a
   * case that looks the endpoint up; a skipped case never reads it.
   */
  predicate CaseTemplateOk(client: ApiClient.Client, tc: TestCase) {
    Strings.Lower(tc.httpMethod) in SupportedMethods ==> Configuration.TemplateOk(client.config, tc.endpoint)
  }

  /** The if/elif dispatch on the lower-cased method; None for a method it does not know. */
  function Dispatch(client: ApiClient.Client, tc: TestCase, transport: Transport): Option<ApiClient.CallResult>
    requires CaseTemplateOk(client, tc)
  {
    var verb := Strings.Lower(tc.httpMethod);
    var pathParams := PathParams(tc);
    if verb == "get" then Some(ApiClient.Get(client, tc.endpoint, None, None, pathParams, transport))
    else if verb == "post" then Some(ApiClient.Post(client, tc.endpoint, tc.payload, None, pathParams, transport))
    else if verb == "put" then Some(ApiClient.Put(client, tc.endpoint, tc.payload, None, pathParams, transport))
    else if verb == "delete" then Some(ApiClient.Delete(client, tc.endpoint, None, pathParams, transport))
    else None
  }

  /** `test_api_endpoints` for one record. */
  function RunCase(client: ApiClient.Client, tc: TestCase, transport: Transport): (r: Outcome)
    requires CaseTemplateOk(client, tc)
    ensures r.Skip? <==> Strings.Lower(tc.httpMethod) !in SupportedMethods
    ensures r.Skip? ==> r.reason == "Unsupported HTTP method: " + Strings.Lower(tc.httpMethod)
    ensures r.Raised? && r.error.Unresolved? <==>
      Strings.Lower(tc.httpMethod) in SupportedMethods &&
      Configuration.GetEndpoint(client.config, tc.endpoint, PathParams(tc)).Err?
    ensures r.Raised? && r.error.Unresolved? ==>
      r.error.resolveError == Configuration.GetEndpoint(client.config, tc.endpoint, PathParams(tc)).error
  {
    match Dispatch(client, tc, transport)
    case None => Skip("Unsupported HTTP method: " + Strings.Lower(tc.httpMethod))
    case Some(ResolutionFailed(e)) => Raised(Unresolved(e))
    case Some(RequestFailed(e)) => Raised(Unsent(e))
    case Some(Responded(response)) => CheckResponse(tc, response)
  }

  /** The method a supported lower-cased method name is sent as. */
  const SentVerb: map<string, string> := map["get" := "GET", "post" := "POST", "put" := "PUT", "delete" := "DELETE"]

  /**
   * The request a supported case sends: its method upper-cased, the resolved
   * URL, no query parameters, no headers, the payload only for post and put,
   * and the fixed timeout.
   */
  function CaseRequest(tc: TestCase, url: string): HttpRequest
    requires Strings.Lower(tc.httpMethod) in SentVerb
  {
    var verb := Strings.Lower(tc.httpMethod);
    var body := if verb == "post" || verb == "put" then tc.payload else None;
    HttpRequest(SentVerb[verb], url, None, body, None, ApiClient.RequestTimeout)
  }

  /** What a supported case does: send exactly `CaseRequest` and judge what comes back. */
  lemma SupportedCaseSends(client: ApiClient.Client, tc: TestCase, transport: Transport)
    requires CaseTemplateOk(client, tc)
    requires Strings.Lower(tc.httpMethod) in SupportedMethods
    requires Configuration.GetEndpoint(client.config, tc.endpoint, PathParams(tc)).Ok?
    ensures var request := CaseRequest(tc, Configuration.GetEndpoint(client.config, tc.endpoint, PathParams(tc)).value);
      RunCase(client, tc, transport) ==
        match transport(request)
        case Received(response) => CheckResponse(tc, response)
        case TransportFailed(e) => Raised(Unsent(e))
  {
  }

  /** An unsupported method skips the case without sending anything: the outcome does not depend on the transport. */
  lemma UnsupportedMethodSkips(client: ApiClient.Client, tc: TestCase, t1: Transport, t2: Transport)
    requires Strings.Lower(tc.httpMethod) !in SupportedMethods
    ensures RunCase(client, tc, t1) == RunCase(client, tc, t2) == Skip("Unsupported HTTP method: " + Strings.Lower(tc.httpMethod))
  {
  }

  /** The method is compared without regard to case: "GET", "Get" and "get" run the same case. */
  lemma MethodCaseInsensitive(client: ApiClient.Client, tc: TestCase, other: string, transport: Transport)
    requires CaseTemplateOk(client, tc)
    requires Strings.Lower(other) == Strings.Lower(tc.httpMethod)
    ensures RunCase(client, tc.(httpMethod := other), transport) == RunCase(client, tc, transport)
  {
    var tc' := tc.(httpMethod := other);
    assert PathParams(tc') == PathParams(tc);
    assert Dispatch(client, tc', transport) == Dispatch(client, tc, transport);
    match Dispatch(client, tc, transport)
    case Some(Responded(response)) =>
      assert CheckResponse(tc', response) == CheckResponse(tc, response) by {
        assert tc'.name == tc.name && tc'.expectedStatus == tc.expectedStatus;
        assert tc'.expectedKeys == tc.expectedKeys && tc'.expectedMinLength == tc.expectedMinLength;
      }
    case _ =>
  }

  lemma GetSpellings()
    ensures Strings.Lower("GET") == Strings.Lower("Get") == "get"
  {
  }

  /** get and delete never send the payload: changing it does not change the outcome. */
  lemma PayloadIgnoredByGetAndDelete(client: ApiClient.Client, tc: TestCase, payload: Option<Json>, transport: Transport)
    requires CaseTemplateOk(client, tc)
    requires Strings.Lower(tc.httpMethod) == "get" || Strings.Lower(tc.httpMethod) == "delete"
    ensures RunCase(client, tc.(payload := payload), transport) == RunCase(client, tc, transport)
  {
  }

  /** Absent or null `params` behave as an empty mapping. */
  lemma AbsentParamsAreEmpty(client: ApiClient.Client, tc: TestCase, transport: Transport)
    requires CaseTemplateOk(client, tc)
    ensures RunCase(client, tc.(params := None), transport) == RunCase(client, tc.(params := Some(map[])), transport)
  {
    var absent, empty := tc.(params := None), tc.(params := Some(map[]));
    assert PathParams(absent) == PathParams(empty);
    assert Dispatch(client, absent, transport) == Dispatch(client, empty, transport);
  }

  /** Every case of the suite that looks its endpoint up has a template the `str.format` subset describes. */
  predicate SuiteTemplatesOk(client: ApiClient.Client, data: TestData) {
    forall i :: 0 <= i < |Cases(data)| ==> CaseTemplateOk(client, Cases(data)[i])
  }

  /**
   * The parametrised test over all records, in file order. The cases run one
   * after another against a live API, so each case gets its own transport:
   * the API's answer to the same request may differ from one case to the next.
   */
  function RunSuite(client: ApiClient.Client, data: TestData, transports: seq<Transport>): (r: seq<Outcome>)
    requires SuiteTemplatesOk(client, data)
    requires |transports| == |Cases(data)|
    ensures |r| == |Cases(data)|
    ensures forall i :: 0 <= i < |r| ==> r[i] == RunCase(client, Cases(data)[i], transports[i])
  {
    RunAll(client, Cases(data), transports)
  }

  function RunAll(client: ApiClient.Client, cases: seq<TestCase>, transports: seq<Transport>): (r: seq<Outcome>)
    requires forall i :: 0 <= i < |cases| ==> CaseTemplateOk(client, cases[i])
    requires |transports| == |cases|
    ensures |r| == |cases|
    ensures forall i :: 0 <= i < |r| ==> r[i] == RunCase(client, cases[i], transports[i])
  {
    if cases == [] then []
    else [RunCase(client, cases[0], transports[0])] + RunAll(client, cases[1..], transports[1..])
  }

  /** A test-data file without `tests` runs no case. */
  lemma NoTestsKey(client: ApiClient.Client)
    ensures SuiteTemplatesOk(client, TestData(None))
    ensures RunSuite(client, TestData(None), []) == []
  {
  }
}
