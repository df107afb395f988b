// The token store: two persisted strings and the two queries the session
// logic asks of them.
module TokenStore {

  /** `isLoggedIn`: both tokens are present. */
  predicate LoggedIn(accessToken: string, refreshToken: string)
  {
    accessToken != "" && refreshToken != ""
  }

  /** `isAccessTokenExpired`: the token is not decoded; only an empty
    * access token counts as expired. */
  predicate AccessTokenExpired(accessToken: string)
  {
    accessToken == ""
  }

  /** Being logged in rules out an expired access token, whatever the
    * refresh token is. */
  lemma LoggedInIsNeverExpired(accessToken: string, refreshToken: string)
    ensures LoggedIn(accessToken, refreshToken) ==> !AccessTokenExpired(accessToken)
  {
  }

  class TokenManager {
    var accessToken: string
    var refreshToken: string

    /** A token manager reads whatever the persistent store holds; a store
      * that was never written holds the empty string for both keys. */
    constructor(storedAccessToken: string, storedRefreshToken: string)
      ensures accessToken == storedAccessToken && refreshToken == storedRefreshToken
    {
      accessToken := storedAccessToken;
      refreshToken := storedRefreshToken;
    }

    predicate IsLoggedIn()
      reads this
    {
      LoggedIn(accessToken, refreshToken)
    }

    predicate IsAccessTokenExpired()
      reads this
    {
      AccessTokenExpired(accessToken)
    }

    method SaveTokens(newAccessToken: string, newRefreshToken: string)
      modifies this
      ensures accessToken == newAccessToken && refreshToken == newRefreshToken
      ensures IsLoggedIn() <==> newAccessToken != "" && newRefreshToken != ""
    {
      accessToken := newAccessToken;
      refreshToken := newRefreshToken;
    }

    method ClearTokens()
      modifies this
      ensures accessToken == "" && refreshToken == ""
      ensures !IsLoggedIn() && IsAccessTokenExpired()
    {
      accessToken := "";
      refreshToken := "";
    }

    method Logout()
      modifies this
      ensures accessToken == "" && refreshToken == ""
      ensures !IsLoggedIn() && IsAccessTokenExpired()
    {
      ClearTokens();
    }
  }
}
