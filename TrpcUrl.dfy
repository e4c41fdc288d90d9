/**
 * Where the tRPC client sends its requests: a relative URL in the browser,
 * otherwise an absolute one chosen by the deployment environment. The
 * presence of `window` and the environment variables are parameters.
 */
module TrpcUrl {
  import opened Results

  /** The process environment the base URL depends on; an unset variable is None. */
  datatype Env = Env(vercelEnv: Option<string>, vercelUrl: Option<string>, port: Option<string>)

  const ProductionUrl: string := "https://zkarcade.vixuslabs.com"
  const ApiSuffix: string := "/api/trpc"
  const DefaultPort: string := "3000"

  /** A template literal interpolating an unset variable writes "undefined". */
  function Interpolate(v: Option<string>): string
  {
    if v.Some? then v.value else "undefined"
  }

  /** `getBaseUrl()`. */
  function GetBaseUrl(windowDefined: bool, env: Env): (base: string)
    ensures base == "" <==> windowDefined
    ensures !windowDefined ==> |base| > 7 && base[..4] == "http"
  {
    if windowDefined then ""
    else if env.vercelEnv == Some("production") then ProductionUrl
    else if env.vercelEnv == Some("preview") then "https://" + Interpolate(env.vercelUrl)
    else "http://localhost:" + (if env.port.Some? then env.port.value else DefaultPort)
  }

  /** `getUrl()`: the base URL followed by the API path. */
  function GetUrl(windowDefined: bool, env: Env): (url: string)
    ensures |url| == |GetBaseUrl(windowDefined, env)| + |ApiSuffix|
    ensures url[..|GetBaseUrl(windowDefined, env)|] == GetBaseUrl(windowDefined, env)
    ensures url[|GetBaseUrl(windowDefined, env)|..] == ApiSuffix
  {
    GetBaseUrl(windowDefined, env) + ApiSuffix
  }

  /** In the browser every request goes to the same origin: the URL is just the API path. */
  lemma BrowserUsesRelativeUrl(env: Env)
    ensures GetBaseUrl(true, env) == ""
    ensures GetUrl(true, env) == "/api/trpc"
  {
  }

  /** In production the server talks to the public deployment over HTTPS. */
  lemma ProductionUsesPublicHost(env: Env)
    requires env.vercelEnv == Some("production")
    ensures GetUrl(false, env) == "https://zkarcade.vixuslabs.com/api/trpc"
  {
  }

  /** A preview deployment talks to its own host over HTTPS, even when the host variable is unset. */
  lemma PreviewUsesDeploymentHost(env: Env)
    requires env.vercelEnv == Some("preview")
    ensures env.vercelUrl.Some? ==> GetBaseUrl(false, env) == "https://" + env.vercelUrl.value
    ensures env.vercelUrl.None? ==> GetBaseUrl(false, env) == "https://undefined"
  {
  }

  /** Any other environment, unset included, talks to localhost on PORT, 3000 when PORT is unset. */
  lemma OtherwiseUsesLocalhost(env: Env)
    requires env.vercelEnv != Some("production") && env.vercelEnv != Some("preview")
    ensures env.port.Some? ==> GetUrl(false, env) == "http://localhost:" + env.port.value + "/api/trpc"
    ensures env.port.None? ==> GetUrl(false, env) == "http://localhost:3000/api/trpc"
  {
  }

  /** Outside the browser the URL is absolute, and it is HTTPS exactly on a deployment. */
  lemma ServerUrlIsAbsolute(env: Env)
    ensures |GetUrl(false, env)| > 8
    ensures GetUrl(false, env)[..8] == "https://" <==>
              env.vercelEnv == Some("production") || env.vercelEnv == Some("preview")
  {
    if env.vercelEnv != Some("production") && env.vercelEnv != Some("preview") {
      assert GetUrl(false, env)[4] == ':';
    }
  }
}
