/**
 * The configuration of the harness (src/utils/config.py): which environment
 * is selected, its base URL, and the endpoint templates; and the resolution
 * of a logical endpoint name plus path parameters into a URL.
 *
 * The YAML document is taken already parsed (RawConfig) and the process
 * environment is reduced to the value of the ENVIRONMENT variable.
 */
module Configuration {
  import opened Wrappers
  import Strings
  import Template

  /** One entry of `environments`; `baseUrl` is None when the entry has no `base_url` key. */
  datatype EnvironmentEntry = EnvironmentEntry(baseUrl: Option<string>)

  /** The parsed configuration file; None stands for a missing top-level key. */
  datatype RawConfig = RawConfig(
    defaultEnvironment: Option<string>,
    environments: Option<map<string, EnvironmentEntry>>,
    endpoints: Option<map<string, string>>)

  /** A loaded configuration; never changed after loading. */
  datatype Config = Config(env: string, baseUrl: string, endpoints: map<string, string>)

  /** The ValueError raised for an unregistered environment, and the KeyError for an entry without `base_url`. */
  datatype ConfigError = EnvironmentNotDefined(env: string) | BaseUrlMissing(env: string)

  /** The two KeyErrors `get_endpoint` raises. */
  datatype ResolveError = EndpointNotFound(name: string) | MissingParameter(param: string, endpoint: string)

  const FallbackEnvironment := "dev"

  /** ENVIRONMENT wins; otherwise `default_environment`; otherwise "dev". */
  function SelectEnvironment(envVar: Option<string>, raw: RawConfig): (env: string)
    ensures envVar.Some? ==> env == envVar.value
    ensures envVar.None? && raw.defaultEnvironment.Some? ==> env == raw.defaultEnvironment.value
    ensures envVar.None? && raw.defaultEnvironment.None? ==> env == FallbackEnvironment
  {
    envVar.GetOr(raw.defaultEnvironment.GetOr(FallbackEnvironment))
  }

  /** `raw_config.get("environments", {})`. */
  function Environments(raw: RawConfig): map<string, EnvironmentEntry> {
    raw.environments.GetOr(map[])
  }

  /** `Config.__init__` after the file has been read. */
  function Load(envVar: Option<string>, raw: RawConfig): (r: Result<Config, ConfigError>)
    ensures var env := SelectEnvironment(envVar, raw);
      && (r == Err(EnvironmentNotDefined(env)) <==> env !in Environments(raw))
      && (r == Err(BaseUrlMissing(env)) <==> env in Environments(raw) && Environments(raw)[env].baseUrl.None?)
      && (r.Ok? <==> env in Environments(raw) && Environments(raw)[env].baseUrl.Some?)
    ensures r.Ok? ==>
      && r.value.env == SelectEnvironment(envVar, raw)
      && Environments(raw)[r.value.env].baseUrl == Some(r.value.baseUrl)
      && r.value.endpoints == raw.endpoints.GetOr(map[])
  {
    var env := SelectEnvironment(envVar, raw);
    var environments := Environments(raw);
    if env !in environments then Err(EnvironmentNotDefined(env))
    else match environments[env].baseUrl
      case None => Err(BaseUrlMissing(env))
      case Some(url) => Ok(Config(env, url, raw.endpoints.GetOr(map[])))
  }

  /** An override naming a registered environment selects it, whatever the declared default. */
  lemma OverrideWins(e: string, raw: RawConfig, otherDefault: Option<string>)
    requires e in Environments(raw) && Environments(raw)[e].baseUrl.Some?
    ensures Load(Some(e), raw) == Load(Some(e), raw.(defaultEnvironment := otherDefault))
    ensures Load(Some(e), raw).Ok? && Load(Some(e), raw).value.baseUrl == Environments(raw)[e].baseUrl.value
  {
  }

  /** The templates a lookup may use must be ones the `str.format` subset describes. */
  predicate TemplateOk(c: Config, name: string) {
    name in c.endpoints ==> Template.WellFormed(c.endpoints[name])
  }

  /**
   * `get_endpoint(name, **params)`: look the name up, fill the template's
   * fields, and append the path to the base URL with every trailing `/`
   * removed. No slash is added or removed at the join.
   */
  function GetEndpoint(c: Config, name: string, params: map<string, string>): (r: Result<string, ResolveError>)
    requires TemplateOk(c, name)
    ensures r == Err(EndpointNotFound(name)) <==> name !in c.endpoints
    ensures r.Err? && r.error.MissingParameter? ==>
      && name in c.endpoints
      && r.error.endpoint == name
      && Template.References(c.endpoints[name], r.error.param)
      && r.error.param !in params
      && Template.FirstMissing(Template.Parse(c.endpoints[name]).value, params, r.error.param)
    ensures r.Ok? <==>
      name in c.endpoints && forall p :: Template.References(c.endpoints[name], p) ==> p in params
    ensures r.Ok? ==>
      r.value == Strings.RStrip(c.baseUrl, '/') + Template.Format(c.endpoints[name], params).text
  {
    if name !in c.endpoints then Err(EndpointNotFound(name))
    else match Template.Format(c.endpoints[name], params)
      case KeyMissing(p) => Err(MissingParameter(p, name))
      case Text(path) => Ok(Strings.RStrip(c.baseUrl, '/') + path)
  }

  /**
   * A resolved URL is the base URL cut after its last non-`/` character,
   * followed by the filled path.
   */
  lemma ResolvedUrlShape(c: Config, name: string, params: map<string, string>)
    requires TemplateOk(c, name)
    requires GetEndpoint(c, name, params).Ok?
    ensures var url := GetEndpoint(c, name, params).value;
      exists k :: 0 <= k <= |c.baseUrl| && k <= |url|
        && url[..k] == c.baseUrl[..k]
        && (k == 0 || c.baseUrl[k - 1] != '/')
        && (forall i :: k <= i < |c.baseUrl| ==> c.baseUrl[i] == '/')
        && url[k..] == Template.Format(c.endpoints[name], params).text
  {
    var b := Strings.RStrip(c.baseUrl, '/');
    var url := GetEndpoint(c, name, params).value;
    var k := |b|;
    assert url[..k] == b && url[k..] == Template.Format(c.endpoints[name], params).text;
  }

  /** A configuration file without `endpoints` makes every lookup fail. */
  lemma NoEndpointsKey(envVar: Option<string>, raw: RawConfig, name: string, params: map<string, string>)
    requires raw.endpoints.None? && Load(envVar, raw).Ok?
    ensures TemplateOk(Load(envVar, raw).value, name)
    ensures GetEndpoint(Load(envVar, raw).value, name, params) == Err(EndpointNotFound(name))
  {
  }

  /** Path parameters that the template does not name are ignored. */
  lemma UnusedParamsIgnored(c: Config, name: string, p: map<string, string>, q: map<string, string>)
    requires TemplateOk(c, name)
    requires name in c.endpoints ==>
      forall n :: Template.References(c.endpoints[name], n) ==> (n in p <==> n in q) && (n in p ==> p[n] == q[n])
    ensures GetEndpoint(c, name, p) == GetEndpoint(c, name, q)
  {
    if name in c.endpoints {
      Template.FormatIgnoresUnused(c.endpoints[name], p, q);
    }
  }

  /** An endpoint whose template has no braces resolves to the stripped base URL and the template, for any parameters. */
  lemma FixedPathEndpoint(c: Config, name: string, params: map<string, string>)
    requires name in c.endpoints && Template.NoBraces(c.endpoints[name])
    ensures TemplateOk(c, name)
    ensures GetEndpoint(c, name, params) == Ok(Strings.RStrip(c.baseUrl, '/') + c.endpoints[name])
  {
    Template.FormatNoBraces(c.endpoints[name], params);
  }

  /**
   * A template made of a brace-free prefix and one field, such as
   * "/users/{id}": with the field supplied it resolves to the stripped base
   * URL, the prefix and the value; without it, the error names the field.
   */
  lemma OneFieldEndpoint(c: Config, name: string, prefix: string, field: string, value: string)
    requires Template.NoBraces(prefix) && Template.IsFieldName(field)
    requires name in c.endpoints && c.endpoints[name] == prefix + "{" + field + "}"
    ensures TemplateOk(c, name)
    ensures GetEndpoint(c, name, map[field := value]) == Ok(Strings.RStrip(c.baseUrl, '/') + prefix + value)
    ensures GetEndpoint(c, name, map[]) == Err(MissingParameter(field, name))
  {
    Template.FormatOneField(prefix, field, map[field := value]);
    Template.FormatOneField(prefix, field, map[]);
    var b := Strings.RStrip(c.baseUrl, '/');
    assert b + (prefix + value) == b + prefix + value;
  }

  /**
   * An example: `dev` at "http://api.test/" with `get_user` at
   * "/users/{id}" resolves id=42 to "http://api.test/users/42" (written as
   * its three parts), and without
   * `id` names the missing parameter.
   */
  lemma GetUserExample()
    ensures var c := Config("dev", "http://api.test/", map["get_user" := "/users/{id}"]);
      && TemplateOk(c, "get_user")
      && GetEndpoint(c, "get_user", map["id" := "42"]) == Ok("http://api.test" + "/users/" + "42")
      && GetEndpoint(c, "get_user", map[]) == Err(MissingParameter("id", "get_user"))
  {
    var c := Config("dev", "http://api.test/", map["get_user" := "/users/{id}"]);
    assert Template.IsFieldName("id") by { assert !Strings.IsDigit("id"[0]); }
    assert "/users/" + "{" + "id" + "}" == "/users/{id}";
    OneFieldEndpoint(c, "get_user", "/users/", "id", "42");
    Strings.RStripUnique("http://api.test/", '/', "http://api.test");
  }

  /** Every trailing slash goes, not only one: "http://api.test//" joins like "http://api.test". */
  lemma DoubleSlashBase(path: string)
    requires Template.NoBraces(path)
    ensures var c := Config("dev", "http://api.test//", map["fixed" := path]);
      TemplateOk(c, "fixed") && GetEndpoint(c, "fixed", map[]) == Ok("http://api.test" + path)
  {
    var c := Config("dev", "http://api.test//", map["fixed" := path]);
    FixedPathEndpoint(c, "fixed", map[]);
    Strings.RStripUnique("http://api.test//", '/', "http://api.test");
  }
}
