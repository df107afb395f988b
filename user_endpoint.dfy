// The user endpoint table: account requests under `/users`.
module UserEndpoints {
  import opened Wrappers
  import opened NetworkTypes

  datatype UserEndpoint =
    | ValidateEmail(email: string)
    | Join(email: string, password: string, nick: string, phoneNum: string, deviceToken: string)
    | Login(email: string, password: string, deviceToken: string)
    | KakaoLogin(oauthToken: string, deviceToken: string)
    | AppleLogin(idToken: string, deviceToken: string, appleNick: Option<string>)
    | MyProfile

  function Path(e: UserEndpoint): (p: string)
    ensures "/users/" <= p
  {
    match e
    case ValidateEmail(_) => "/users/validation/email"
    case Join(_, _, _, _, _) => "/users/join"
    case Login(_, _, _) => "/users/login"
    case KakaoLogin(_, _) => "/users/login/kakao"
    case AppleLogin(_, _, _) => "/users/login/apple"
    case MyProfile => "/users/me/profile"
  }

  /** Each case has its own path. */
  lemma PathsDistinct(e1: UserEndpoint, e2: UserEndpoint)
    requires Path(e1) == Path(e2)
    ensures e1.ValidateEmail? == e2.ValidateEmail? && e1.Join? == e2.Join? && e1.Login? == e2.Login?
    ensures e1.KakaoLogin? == e2.KakaoLogin? && e1.AppleLogin? == e2.AppleLogin? && e1.MyProfile? == e2.MyProfile?
  {
  }

  function Method(e: UserEndpoint): (m: NetworkMethod)
    ensures m == Get <==> e.MyProfile?
    ensures m != Get ==> m == Post
  {
    if e.MyProfile? then Get else Post
  }

  function Parameters(e: UserEndpoint): (p: Option<seq<QueryItem>>)
    ensures p.None?
  {
    None
  }

  function Headers(env: Environment, e: UserEndpoint): (h: map<string, string>)
    ensures h.Keys == {"Content-Type", "SeSACKey"}
    ensures h["Content-Type"] == "application/json" && h["SeSACKey"] == env.apiKey
  {
    JsonHeaders(env)
  }

  function BodyOf(e: UserEndpoint): (b: Option<Body>)
    ensures b.None? <==> e.MyProfile?
  {
    match e
    case ValidateEmail(email) => Some(EmailValidationBody(email))
    case Join(email, password, nick, phone, device) => Some(JoinBody(email, password, nick, phone, device))
    case Login(email, password, device) => Some(LoginBody(email, password, device))
    case KakaoLogin(token, device) => Some(KakaoLoginBody(token, device))
    case AppleLogin(idToken, device, nick) => Some(AppleLoginBody(idToken, device, nick))
    case MyProfile => None
  }

  /** Reads a user request back from its body: the partner of `BodyOf`. */
  function FromBody(b: Body): Option<UserEndpoint>
  {
    match b
    case EmailValidationBody(email) => Some(ValidateEmail(email))
    case JoinBody(email, password, nick, phone, device) => Some(Join(email, password, nick, phone, device))
    case LoginBody(email, password, device) => Some(Login(email, password, device))
    case KakaoLoginBody(token, device) => Some(KakaoLogin(token, device))
    case AppleLoginBody(idToken, device, nick) => Some(AppleLogin(idToken, device, nick))
    case _ => None
  }

  /** Every body carries exactly its case's arguments: reading it back
    * recovers the case. */
  lemma BodyRoundTrip(e: UserEndpoint)
    requires !e.MyProfile?
    ensures BodyOf(e).Some? && FromBody(BodyOf(e).value) == Some(e)
  {
  }

  /** User requests use the unversioned base URL. */
  function Describe(env: Environment, e: UserEndpoint): (d: Endpoint)
    ensures d.baseUrl == env.baseUrl
    ensures d.path == Path(e) && d.networkMethod == Method(e) && d.parameters.None?
    ensures d.headers == Some(Headers(env, e)) && d.body == BodyOf(e)
  {
    Endpoint(env.baseUrl, Path(e), Method(e), Parameters(e), Some(Headers(env, e)), BodyOf(e))
  }

  /** Two different user requests never produce the same descriptor. */
  lemma DescribeInjective(env: Environment, e1: UserEndpoint, e2: UserEndpoint)
    requires Describe(env, e1) == Describe(env, e2)
    ensures e1 == e2
  {
    if !e1.MyProfile? {
      BodyRoundTrip(e1);
      BodyRoundTrip(e2);
    }
  }
}
