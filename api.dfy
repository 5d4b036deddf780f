/** The HTTP client: its base URL, the bearer token it holds, and the
    request interceptor that attaches that token. */
module Api {
  import opened Wrappers
  import opened Text
  import opened Records

  /** The parts of an outgoing request the interceptor sees. */
  datatype RequestConfig = RequestConfig(url: Option<string>, verb: string, data: Option<string>, headers: map<string, string>)

  const LoginPath := "/Auth/login"
  const RegisterPath := "/usuarios/register"

  /** The substring allowlist of public endpoints. A missing url is not public. */
  predicate IsPublic(url: Option<string>) {
    url.Some? && (Contains(url.value, LoginPath) || Contains(url.value, RegisterPath))
  }

  /** The Authorization header the interceptor adds, if any. */
  function AuthorizationFor(authToken: Option<string>, url: Option<string>): (h: Option<string>)
    ensures h.Some? <==> !IsPublic(url) && Truthy(authToken)
    ensures h.Some? ==> h.value == "Bearer " + authToken.value
  {
    if !IsPublic(url) && Truthy(authToken) then Some("Bearer " + authToken.value) else None
  }

  /** The request after the interceptor: only `headers.Authorization` can differ. */
  function Decorate(authToken: Option<string>, config: RequestConfig): RequestConfig {
    match AuthorizationFor(authToken, config.url)
    case Some(h) => config.(headers := config.headers["Authorization" := h])
    case None => config
  }

  /** `expoHost.split(":")[0]`: the text before the first ':'. */
  function BeforeColon(s: string): (ip: string)
    ensures |ip| <= |s| && ip == s[..|ip|]
    ensures forall i :: 0 <= i < |ip| ==> ip[i] != ':'
    ensures |ip| < |s| ==> s[|ip|] == ':'
  {
    if s == [] || s[0] == ':' then [] else [s[0]] + BeforeColon(s[1..])
  }

  /** `resolveBaseURL`, with the Expo host URI and `Platform.OS` given. */
  function ResolveBaseUrl(hostUri: Option<string>, os: string): string {
    if Truthy(hostUri) then "http://" + BeforeColon(hostUri.value) + ":5101/api/v2"
    else if os == "android" then "http://10.0.2.2:5101/api/v2"
    else "http://localhost:5101/api/v2"
  }

  /** A host URI `ip:port` with a non-empty `ip` yields `http://ip:5101/api/v2`. */
  lemma {:induction false} BeforeColonOfHostPort(ip: string, port: string)
    requires forall i :: 0 <= i < |ip| ==> ip[i] != ':'
    ensures BeforeColon(ip + ":" + port) == ip
  {
    if ip != [] {
      assert (ip + ":" + port)[1..] == ip[1..] + ":" + port;
      BeforeColonOfHostPort(ip[1..], port);
    }
  }

  lemma ResolveBaseUrlHostPort(ip: string, port: string, os: string)
    requires forall i :: 0 <= i < |ip| ==> ip[i] != ':'
    ensures ResolveBaseUrl(Some(ip + ":" + port), os) == "http://" + ip + ":5101/api/v2"
  {
    BeforeColonOfHostPort(ip, port);
  }

  /** Without a host URI the choice depends on the platform only. */
  lemma ResolveBaseUrlFallback(hostUri: Option<string>, os: string)
    requires !Truthy(hostUri)
    ensures ResolveBaseUrl(hostUri, os) ==
      if os == "android" then "http://10.0.2.2:5101/api/v2" else "http://localhost:5101/api/v2"
  {
  }

  class ApiClient {
    /** The module-level `authToken`. */
    var authToken: Option<string>
    const baseURL: string

    constructor (hostUri: Option<string>, os: string)
      ensures authToken == None
      ensures baseURL == ResolveBaseUrl(hostUri, os)
    {
      authToken := None;
      baseURL := ResolveBaseUrl(hostUri, os);
    }

    /** `setToken`: the new value replaces the old one. */
    method SetToken(t: Option<string>)
      modifies this
      ensures authToken == t
    {
      authToken := t;
    }

    /** The request interceptor. */
    method Intercept(config: RequestConfig) returns (out: RequestConfig)
      ensures out == Decorate(authToken, config)
      ensures out == config.(headers := out.headers)
      ensures IsPublic(config.url) ==> out == config
      ensures !IsPublic(config.url) && Truthy(authToken) ==>
        out.headers == config.headers["Authorization" := "Bearer " + authToken.value]
      ensures !Truthy(authToken) ==> out == config
    {
      var isPublic := config.url.Some? && (Contains(config.url.value, LoginPath) || Contains(config.url.value, RegisterPath));
      out := config;
      if !isPublic && authToken.Some? && authToken.value != "" {
        out := config.(headers := config.headers["Authorization" := "Bearer " + authToken.value]);
      }
    }
  }

  /** Any url that mentions the login path is public, wherever it occurs. */
  lemma LoginUrlsArePublic(before: string, after: string)
    ensures IsPublic(Some(before + LoginPath + after))
  {
    assert OccursAt(LoginPath, LoginPath, 0);
    ContainsInContext(before, LoginPath, after, LoginPath);
  }

  /** Registration posts to "/Usuario", which is not on the allowlist:
      it carries the bearer header whenever a token is set. */
  lemma RegistrationCarriesBearer(token: string, config: RequestConfig)
    requires config.url == Some("/Usuario") && token != ""
    ensures Decorate(Some(token), config).headers == config.headers["Authorization" := "Bearer " + token]
  {
    LongPatternNotContained("/Usuario", LoginPath);
    LongPatternNotContained("/Usuario", RegisterPath);
  }

  /** Later requests see only the latest token. */
  method SetTokenThenIntercept(client: ApiClient, first: Option<string>, second: string, config: RequestConfig)
    returns (out: RequestConfig)
    requires second != "" && !IsPublic(config.url)
    modifies client
    ensures out.headers == config.headers["Authorization" := "Bearer " + second]
  {
    client.SetToken(first);
    client.SetToken(Some(second));
    out := client.Intercept(config);
  }
}
