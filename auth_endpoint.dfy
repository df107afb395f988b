// The token refresh request.
module AuthEndpoints {
  import opened Wrappers
  import opened NetworkTypes

  datatype AuthEndpoint = Refresh(refreshToken: string)

  /** The refresh request carries the refresh token it was built with and
    * the access token that a freshly made token manager reads from the
    * persistent store, passed in here as `storedAccessToken`. */
  function Headers(env: Environment, e: AuthEndpoint, storedAccessToken: string): (h: map<string, string>)
    ensures h.Keys == {"Content-Type", "SeSACKey", "RefreshToken", "Authorization"}
    ensures h["RefreshToken"] == e.refreshToken && h["Authorization"] == storedAccessToken
    ensures h["Content-Type"] == "application/json" && h["SeSACKey"] == env.apiKey
  {
    map["Content-Type" := "application/json", "SeSACKey" := env.apiKey,
        "RefreshToken" := e.refreshToken, "Authorization" := storedAccessToken]
  }

  function Describe(env: Environment, e: AuthEndpoint, storedAccessToken: string): (d: Endpoint)
    ensures d.baseUrl == env.baseUrl && d.path == "/auth/refresh" && d.networkMethod == Get
    ensures d.parameters.None? && d.body.None?
    ensures d.headers == Some(Headers(env, e, storedAccessToken))
  {
    Endpoint(env.baseUrl, "/auth/refresh", Get, None, Some(Headers(env, e, storedAccessToken)), None)
  }
}
