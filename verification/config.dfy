/**
 * Front-end configuration of the backend: base URL and bearer token taken from
 * the environment with fixed fallbacks, the endpoint URLs built from the base,
 * and the headers every forwarded call carries.
 */
module Config {
  import opened Wrappers
  import opened Text
  import opened Http

  const DefaultApiUrl := "http://localhost:8000"
  const DefaultApiToken := "bumbumbakudan"

  /** The two environment variables read at start-up (absent when unset). */
  datatype Env = Env(harmonyApiUrl: Option<string>, harmonyApiToken: Option<string>)

  datatype Settings = Settings(apiUrl: string, apiToken: string)

  /** `config`: each value falls back to its default when the variable is unset or empty. */
  function Load(env: Env): (c: Settings)
    ensures c.apiUrl != "" && c.apiToken != ""
    ensures env.harmonyApiUrl.Some? && env.harmonyApiUrl.value != "" ==> c.apiUrl == env.harmonyApiUrl.value
    ensures env.harmonyApiUrl.None? || env.harmonyApiUrl.value == "" ==> c.apiUrl == DefaultApiUrl
    ensures env.harmonyApiToken.Some? && env.harmonyApiToken.value != "" ==> c.apiToken == env.harmonyApiToken.value
    ensures env.harmonyApiToken.None? || env.harmonyApiToken.value == "" ==> c.apiToken == DefaultApiToken
  {
    Settings(OrElse(env.harmonyApiUrl, DefaultApiUrl), OrElse(env.harmonyApiToken, DefaultApiToken))
  }

  /** The paths of the fixed endpoints, appended to the base URL. */
  datatype Endpoint = HealthEndpoint | Visualize | VisualizeAll | VisualizeParallel | CacheStatus

  function PathOf(e: Endpoint): string
  {
    match e
    case HealthEndpoint => "/health"
    case Visualize => "/tempo/visualize"
    case VisualizeAll => "/tempo/visualize/all"
    case VisualizeParallel => "/tempo/visualize/parallel"
    case CacheStatus => "/cache/status"
  }

  /** `apiEndpoints.<name>`: the base URL followed by the endpoint's path. */
  function Url(c: Settings, e: Endpoint): (u: string)
    ensures |u| == |c.apiUrl| + |PathOf(e)|
    ensures u[..|c.apiUrl|] == c.apiUrl && u[|c.apiUrl|..] == PathOf(e)
  {
    c.apiUrl + PathOf(e)
  }

  const StatusPrefix := "/tempo/visualize/status/"
  const ResultsPrefix := "/tempo/visualize/results/"

  /** `apiEndpoints.visualizeStatus(jobId)`: the id goes in verbatim, unescaped. */
  function VisualizeStatus(c: Settings, jobId: string): (u: string)
    ensures |u| == |c.apiUrl| + |StatusPrefix| + |jobId|
    ensures u[..|c.apiUrl| + |StatusPrefix|] == c.apiUrl + StatusPrefix
    ensures u[|c.apiUrl| + |StatusPrefix|..] == jobId
  {
    c.apiUrl + StatusPrefix + jobId
  }

  /** `apiEndpoints.visualizeResults(jobId)`. */
  function VisualizeResults(c: Settings, jobId: string): (u: string)
    ensures |u| == |c.apiUrl| + |ResultsPrefix| + |jobId|
    ensures u[..|c.apiUrl| + |ResultsPrefix|] == c.apiUrl + ResultsPrefix
    ensures u[|c.apiUrl| + |ResultsPrefix|..] == jobId
  {
    c.apiUrl + ResultsPrefix + jobId
  }

  /** `defaultHeaders`: JSON content and the bearer token. */
  function DefaultHeaders(c: Settings): (h: seq<Header>)
    ensures |h| == 2
    ensures h[0] == Header("Content-Type", "application/json")
    ensures h[1].name == "Authorization" && |h[1].value| == 7 + |c.apiToken|
    ensures h[1].value[..7] == "Bearer " && h[1].value[7..] == c.apiToken
  {
    [Header("Content-Type", "application/json"), Header("Authorization", "Bearer " + c.apiToken)]
  }
}
