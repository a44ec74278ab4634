# API testing harness: a verified model of its core

The repository is a small data-driven HTTP test harness. A configuration file
names environments (each with a base URL) and endpoints (each a path template
such as `/users/{id}`). An API client turns a logical endpoint name and path
parameters into a URL and sends the request. A pytest test replays test-case
records from a YAML file and checks each response's status, JSON keys and
list length.

This project models the three pieces of that code that carry logic. Each is
modelled as pure functions over values, because the source only computes with
them and never updates state after construction:

- **Configuration** (`configuration.dfy`, for `src/utils/config.py`).
  `Load` selects the environment: the `ENVIRONMENT` variable first, then
  `default_environment`, then `"dev"`. It rejects a name that has no entry
  under `environments`. `GetEndpoint` resolves an endpoint name. An unknown
  name fails before any substitution. A missing placeholder fails and names
  the first field, left to right, that has no argument. Otherwise the result
  is the base URL with every trailing `/` removed, followed by the filled path.
  A `Config` is a value, so resolving the same name and parameters twice gives
  the same URL.
- **Template** (`template.dfy`) models the part of Python's `str.format(**params)`
  that `get_endpoint` uses: `{name}` fields and the `{{`/`}}` escapes. A
  template is parsed into literal and field segments. `Parse` and `Unparse`
  are proved inverse in both directions. The filled result is characterised
  by lemmas:
  - a template without fields gives its text back with the escapes undone;
  - unused arguments are ignored;
  - a repeated field gets the same value at each place;
  - the first missing field is the one reported.
- **ApiClient** (`api_client.dfy`, for `src/api_client.py`). `Request`
  resolves the URL first. A resolution error is returned before the transport
  is consulted. Otherwise `Request` hands the transport one request, with the
  method upper-cased, query parameters, JSON body and headers passed through,
  and `timeout=10`. It then returns whatever the transport gives back,
  unchanged, whatever the status. `Get`, `Post`, `Put` and `Delete` are each
  stated by the exact request they send.
- **ApiTests** (`api_tests.dfy`, for `tests/test_sample_api.py`). `RunCase`
  evaluates one record to `Pass`, `Fail(failure)`, `Skip(reason)`, or
  `Raised(error)` for an exception that escapes the test body. The method is
  lower-cased and dispatched, and an unknown method skips without sending.
  The status is checked first. The key and minimum-length checks run only for
  a JSON Content-Type. The first failing assertion ends the case. `Message`
  gives the message argument of each failing `assert` or `pytest.fail`;
  for an `assert`, pytest prints it followed by its own assertion
  introspection, which is not modelled. `RunSuite` maps `RunCase` over
  `TEST_DATA.get("tests", [])`, each case against its own transport.

Supporting modules: `Wrappers` (Option, Result), `Strings` (Python's
`upper`, `lower`, `rstrip`, `startswith`, substring `in` and `str(int)`), and
`Http` (JSON values, the request, the response, the transport oracle).

Behaviour of the code that the model states outright:

- `rstrip("/")` (src/utils/config.py:68) removes every trailing slash from
  the base URL, not just one. `DoubleSlashBase` shows this.
- The expected-keys check uses Python's `in` (tests/test_sample_api.py:93),
  whatever the decoded body is. On an object it tests for a key. On a list it
  tests element membership. On a string it tests for a substring. On a
  number, boolean or null it raises TypeError, which is modelled as
  `Raised(NotIterable(data))`.
- A transport exception is re-raised unchanged (src/api_client.py:71-73), and
  `RequestFailed` carries that same value.
- `str.format` (src/utils/config.py:65) raises KeyError for the first field
  without an argument, scanning left to right. `Format` and `GetEndpoint`
  state which field that is.

## Model

| member | source | states |
|---|---|---|
| `Configuration.SelectEnvironment` | src/utils/config.py:38 | the ENVIRONMENT variable wins; otherwise `default_environment`; otherwise "dev" |
| `Configuration.Load` | src/utils/config.py:38-44 | an unregistered selected name gives EnvironmentNotDefined naming it (a missing `environments` key counts as `{}`); an entry without `base_url` gives BaseUrlMissing; otherwise the config holds the selected name, that entry's base URL and the `endpoints` map (or `{}`) |
| `Configuration.OverrideWins` | src/utils/config.py:38-43 | an override naming a registered environment makes the declared default irrelevant, and the base URL is that environment's |
| `Configuration.GetEndpoint` | src/utils/config.py:61-68 | EndpointNotFound exactly when the name is not registered; MissingParameter names the endpoint and the first field of its template, left to right, that has no argument; success exactly when every field is supplied, giving the stripped base URL followed by the formatted path |
| `Configuration.ResolvedUrlShape` | src/utils/config.py:68 | the URL is the base URL cut after its last non-`/` character (everything removed is `/`), followed directly by the path: no slash is added at the join |
| `Configuration.NoEndpointsKey` | src/utils/config.py:44-62 | a configuration file without `endpoints` makes every lookup fail with EndpointNotFound |
| `Configuration.UnusedParamsIgnored` | src/utils/config.py:65 | two parameter maps that agree on the template's fields resolve to the same result |
| `Configuration.FixedPathEndpoint` | src/utils/config.py:63-68 | a template without braces resolves, for any parameters, to the stripped base URL followed by the template itself |
| `Configuration.OneFieldEndpoint` | src/utils/config.py:61-68 | a template "prefix{field}" resolves field=v to stripped base + prefix + v, and without the field fails with MissingParameter(field, name) |
| `Configuration.GetUserExample` | src/utils/config.py:61-68 | "http://api.test/" with get_user at "/users/{id}" resolves id=42 to "http://api.test/users/42", and with no id fails naming `id` |
| `Configuration.DoubleSlashBase` | src/utils/config.py:68 | a base URL ending in "//" loses both slashes |
| `Strings.RStrip` | src/utils/config.py:68 | the result is a prefix of the input that does not end in the character, and everything removed is that character |
| `Strings.RStripUnique` | src/utils/config.py:68 | those three properties determine the result, so every trailing `/` goes, not just one |
| `Template.ParseUnparse` | src/utils/config.py:65 | every valid segment sequence is parsed back from its format string |
| `Template.UnparseParse` | src/utils/config.py:65 | every well-formed template is the format string of its own segments, whose fields are all keyword fields |
| `Template.ParseConcat` | src/utils/config.py:65 | two well-formed templates side by side form a well-formed template whose segments are theirs concatenated |
| `Template.Substitute` | src/utils/config.py:65 | succeeds exactly when every field has an argument; otherwise reports the first field, left to right, that has none |
| `Template.SubstituteAppend` | src/utils/config.py:65 | filling is done segment by segment: the result for a + b is a's text followed by b's, and a's missing key takes precedence |
| `Template.Format` | src/utils/config.py:65 | `template.format(**params)` succeeds exactly when every referenced field is in params; a KeyError names the first field of the template, left to right, that is not |
| `Template.FormatEscape` | src/utils/config.py:65 | a template without fields gives its text with `{{` and `}}` read as single braces, for any arguments |
| `Template.FormatNoBraces` | src/utils/config.py:65 | a template without braces is returned unchanged |
| `Template.FormatIgnoresUnused` | src/utils/config.py:65 | arguments that no field names do not affect the result |
| `Template.FormatRepeatedField` | src/utils/config.py:65 | a field occurring twice anywhere in a template (`pre{n}mid{n}post`) gets the same argument at both places, between the formatted pieces around it |
| `Template.FormatOneField` | src/utils/config.py:65 | "prefix{field}" formats to prefix + value, or to a KeyError naming the field |
| `Strings.Upper` | src/api_client.py:62 | `method.upper()` keeps the length and the text ignoring case, and leaves no lower-case letter |
| `Strings.UpperIgnoresCase` | src/api_client.py:62 | two method names that agree ignoring case are sent as the same upper-case method |
| `ApiClient.BuildRequest` | src/api_client.py:53-68 | a resolution error yields no request; otherwise the request has the upper-cased method, the resolved URL, the given params, payload as JSON and headers, and timeout 10 |
| `ApiClient.Send` | src/api_client.py:60-73 | a received response is returned as-is whatever its status; a transport exception is passed on unchanged |
| `ApiClient.Request` | src/api_client.py:53-73 | fails with the resolution error exactly when the endpoint does not resolve; otherwise the result is the transport's answer to the built request |
| `ApiClient.ResolutionFailureSendsNothing` | src/api_client.py:53-61 | when resolution fails the result does not depend on the transport: nothing is sent |
| `ApiClient.Get` | src/api_client.py:75-79 | sends GET with the given query params and headers and no JSON body |
| `ApiClient.Post` | src/api_client.py:81-85 | sends POST with the payload as body and no query params |
| `ApiClient.Put` | src/api_client.py:87-91 | sends PUT with the payload as body and no query params |
| `ApiClient.Delete` | src/api_client.py:93-96 | sends DELETE with neither body nor query params |
| `Strings.Lower` | tests/test_sample_api.py:64 | `method.lower()` keeps the length and the text ignoring case, and leaves no upper-case letter |
| `ApiTests.GetSpellings` | tests/test_sample_api.py:64-71 | "GET" and "Get" both lower-case to "get" |
| `ApiTests.MethodCaseInsensitive` | tests/test_sample_api.py:64 | two method spellings equal ignoring case give the same outcome |
| `ApiTests.AbsentParamsAreEmpty` | tests/test_sample_api.py:66 | absent or null `params` run exactly like `{}` |
| `ApiTests.SupportedCaseSends` | tests/test_sample_api.py:64-78 | a supported case sends exactly one request: its method upper-cased, the resolved URL, no query params, no headers, the payload only for post/put, timeout 10; a transport error escapes, a response is judged by CheckResponse |
| `ApiTests.PayloadIgnoredByGetAndDelete` | tests/test_sample_api.py:67-78 | for get and delete the payload does not affect the outcome |
| `ApiTests.UnsupportedMethodSkips` | tests/test_sample_api.py:79-80 | a method outside get/post/put/delete skips with "Unsupported HTTP method: <method>", and the outcome does not depend on the transport |
| `ApiTests.RunCase` | tests/test_sample_api.py:64-104 | Skip exactly for unsupported methods, with the lower-cased method in the reason; a resolution error escapes exactly for supported methods whose endpoint does not resolve, and it is the very error `get_endpoint` raised |
| `ApiTests.CheckResponse` | tests/test_sample_api.py:82-104 | a status mismatch fails first, naming the case and both statuses; a non-JSON Content-Type skips the body checks; a failing keys block ends the case; an undecodable body fails with UnparsableJson; once the keys block is absent or passes, a minimum length decides the case (NotAList for a non-list, TooFewItems for a short list); Pass exactly when the status matches and, for JSON, the keys and length expectations hold |
| `ApiTests.KeyIn` | tests/test_sample_api.py:93 | `key in data`: key of an object, element of a list, substring of a string; TypeError for null, booleans and numbers |
| `ApiTests.CheckKeys` | tests/test_sample_api.py:92-93 | Pass exactly when every key is in the data; a failure names the first missing key, all earlier keys being present; TypeError only when some key is checked against a non-iterable |
| `ApiTests.ObjectKeys` | tests/test_sample_api.py:92-93 | on an object the check passes exactly when every expected key is a key of the object, and never raises |
| `ApiTests.CheckMinLength` | tests/test_sample_api.py:101-104 | a non-list fails "expected list response"; a list passes exactly when its length is at least the minimum, and otherwise fails with the minimum |
| `ApiTests.Message` | tests/test_sample_api.py:82-104 | every failure message begins with the case's name |
| `ApiTests.StatusMessageNamesStatuses` | tests/test_sample_api.py:82-84 | the status message contains the decimal text of the expected and the actual status, each of which parses back to that number |
| `Strings.DecimalRoundTrip` | tests/test_sample_api.py:83 | `int(str(n)) == n` for the integers printed in failure messages |
| `Strings.DecimalInjective` | tests/test_sample_api.py:83 | different integers print differently |
| `ApiTests.RunSuite` | tests/test_sample_api.py:46 | one outcome per record, in file order, each that record's RunCase against the API as it answers at that case's turn |
| `ApiTests.NoTestsKey` | tests/test_sample_api.py:46 | a data file without `tests` runs no case |

## Left out

- Reading and parsing files: the config file lookup and YAML load (src/utils/config.py:30-36) and `load_test_data` (tests/test_sample_api.py:19-34). The parsed documents are inputs (`RawConfig`, `TestData`).
- The process environment: only the value of `ENVIRONMENT`, or its absence, is an input to `Load`.
- Logging: the log calls in src/api_client.py:54-58, 69 and 72, and all of src/utils/logger.py. They do not affect what is sent or returned.
- tests/__init__.py: `sys.path` set-up at import time. It is environment plumbing.
- The `requests` transport, timeouts firing and connection errors. A transport is a function from the request to a response or an exception. `RunSuite` gives each case its own transport, so the API's answer to the same request may change from one case to the next (a GET after a DELETE, a transient connection error). What a case does to the server is not modelled: nothing links one case's transport to the requests sent before it.
- JSON decoding of response bodies and the case-insensitive header lookup. A response carries the Content-Type value (or none) and a decoded document or a decode failure. JSON numbers are integers; floats are not modelled.
- `str.format` beyond `{name}` fields and `{{`/`}}` escapes: format specs, conversions, attribute and index access, positional fields made of ASCII digits (IndexError) and unmatched braces (ValueError). The template of a looked-up endpoint is required to be well-formed (`TemplateOk`); a record whose method is skipped is not required to name such an endpoint (`CaseTemplateOk`), since it never reads the template.
- A field whose name is made only of non-ASCII Unicode decimal digits (such as `{٣}` or `{３}`) is positional in Python and raises IndexError under `format(**params)`; the model reads it as a keyword field, because it decides "all digits" on ASCII digits only.
- `str()` of non-string path-parameter values: path parameters are given as their text.
- Python keyword-argument binding. The model passes path parameters as a separate map. In the code they travel as `**kwargs` through `get`, `post`, `put` or `delete`, then `request`, then `get_endpoint` (src/api_client.py:26, 53, 75-96; src/utils/config.py:46), so a key that equals a parameter name on that path collides with it. `self`, `endpoint_name`, `method` or `name` raise TypeError for every method. `payload` raises TypeError for a duplicate keyword on post and put, where the runner already passes `payload=` (tests/test_sample_api.py:74, 76); on get and delete it silently becomes the request body. `params` and `headers` silently bind to those arguments. As a consequence, the runner can never fill a template field named `{self}`, `{endpoint_name}`, `{method}`, `{name}`, `{params}`, `{headers}` or `{payload}`.
- Unicode case mapping: `upper()` and `lower()` are modelled on ASCII letters. Other characters are kept as they are.
- YAML values of unexpected types or nulls other than `params`: a null `default_environment`, `environments` or `expected_keys`; a missing `name`, `method`, `endpoint` or `expected_status`; a non-integer status or minimum. The records are typed, so these TypeErrors and KeyErrors are not modelled.
- pytest itself: fixtures, parametrisation and reporting. `RunSuite` takes an already constructed client. A `Config()` failure inside the session fixture is not modelled, though `Load` states when it fails. The default `Config()` in `APIClient.__init__` (src/api_client.py:22) is not modelled either.
