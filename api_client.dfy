/**
 * The frontend's HTTP client set-up (frontend/src/api/client.ts): the
 * base URL the API is reached at, and the response interceptor that
 * sends the browser to the login page on a 401.
 */
module ApiClient {
  import opened Text

  /** The Vite build environment: VITE_API_BASE_URL, DEV and VITE_API_PORT. */
  datatype Env = Env(baseUrl: Option<string>, dev: bool, port: Option<string>)

  /** window.location's protocol (with its colon) and host name. */
  datatype Location = Location(protocol: string, hostname: string)

  /** The port the API is reached at: the trimmed VITE_API_PORT, or 8080 when that is empty. */
  function TargetPort(env: Env): (port: string)
    ensures port != ""
    ensures env.port.None? || JsTrim(env.port.value) == "" ==> port == "8080"
    ensures env.port.Some? && JsTrim(env.port.value) != "" ==> port == JsTrim(env.port.value)
  {
    var trimmed := if env.port.Some? then JsTrim(env.port.value) else "";
    if |trimmed| > 0 then trimmed else "8080"
  }

  /** resolveApiBaseUrl */
  function ResolveApiBaseUrl(env: Env, window: Option<Location>): string {
    var trimmed := if env.baseUrl.Some? then JsTrim(env.baseUrl.value) else "";
    if |trimmed| > 0 then trimmed
    else if env.dev then "/api"
    else if window.None? then "/api"
    else
      var port := TargetPort(env);
      if port == "80" || port == "443" || port == "" then window.value.protocol + "//" + window.value.hostname + "/api"
      else window.value.protocol + "//" + window.value.hostname + ":" + port + "/api"
  }

  /** An explicit base URL wins over everything else, trimmed. */
  lemma ExplicitBaseUrl(env: Env, window: Option<Location>)
    requires env.baseUrl.Some? && JsTrim(env.baseUrl.value) != ""
    ensures ResolveApiBaseUrl(env, window) == JsTrim(env.baseUrl.value)
  {
  }

  /** Without one, a development build and a server-side render use the relative "/api". */
  lemma RelativeApi(env: Env, window: Option<Location>)
    requires env.baseUrl.None? || JsTrim(env.baseUrl.value) == ""
    ensures env.dev || window.None? ==> ResolveApiBaseUrl(env, window) == "/api"
    ensures !env.dev && window.Some? ==> HasPrefix(ResolveApiBaseUrl(env, window), window.value.protocol + "//" + window.value.hostname)
  {
    if !env.dev && window.Some? {
      var prefix := window.value.protocol + "//" + window.value.hostname;
      var r := ResolveApiBaseUrl(env, window);
      assert r == prefix + "/api" || r == prefix + ":" + TargetPort(env) + "/api";
      assert r[..|prefix|] == prefix;
    }
  }

  /**
   * Otherwise the page's own host: without a port for 80 and 443, with the
   * port for anything else (8080 by default).
   */
  lemma AbsoluteApi(env: Env, loc: Location)
    requires env.baseUrl.None? || JsTrim(env.baseUrl.value) == ""
    requires !env.dev
    ensures var port := TargetPort(env);
      ResolveApiBaseUrl(env, Some(loc)) == if port == "80" || port == "443" then loc.protocol + "//" + loc.hostname + "/api"
        else loc.protocol + "//" + loc.hostname + ":" + port + "/api"
  {
  }

  /** A failed response, with the HTTP status when there was a response at all. */
  datatype HttpError = HttpError(status: Option<int>, message: string)

  /** The browser location the interceptor may change. */
  class Browser {
    var href: string

    constructor (href: string)
      ensures this.href == href
    {
      this.href := href;
    }

    /** The error interceptor: a 401 sends the browser to /login; the error is rejected unchanged either way. */
    method OnResponseError(error: HttpError) returns (rejected: HttpError)
      modifies this`href
      ensures rejected == error
      ensures error.status == Some(401) ==> href == "/login"
      ensures error.status != Some(401) ==> href == old(href)
    {
      if error.status == Some(401) {
        href := "/login";
      }
      rejected := error;
    }
  }
}
