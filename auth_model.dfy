// The session state holder: the published session fields, the token store
// it drives, the action dispatcher every change goes through, and the
// sign-in, refresh, expiry and logout flows built from dispatches.
module AuthModels {
  import opened Wrappers
  import opened NetworkTypes
  import TokenStore
  import AuthEndpoints
  import UserEndpoints
  import NetworkServices

  datatype AuthState = Initial | Active | Refreshing | Expired

  datatype LoginType = EmailLogin | KakaoLogin | AppleLogin

  function LoginTypeRawValue(t: LoginType): string
  {
    match t
    case EmailLogin => "email"
    case KakaoLogin => "kakao"
    case AppleLogin => "apple"
  }

  /** `LoginType(rawValue:)`. */
  function LoginTypeFromRawValue(raw: string): (t: Option<LoginType>)
    ensures t.Some? <==> raw in {"email", "kakao", "apple"}
    ensures t.Some? ==> LoginTypeRawValue(t.value) == raw
  {
    if raw == "email" then Some(EmailLogin)
    else if raw == "kakao" then Some(KakaoLogin)
    else if raw == "apple" then Some(AppleLogin)
    else None
  }

  lemma LoginTypeRoundTrip(t: LoginType)
    ensures LoginTypeFromRawValue(LoginTypeRawValue(t)) == Some(t)
  {
  }

  /** `displayName`: the label of a sign-in type is its stored raw value. */
  function LoginTypeDisplayName(t: LoginType): (name: string)
    ensures name == LoginTypeRawValue(t)
    ensures LoginTypeFromRawValue(name) == Some(t)
  {
    match t
    case EmailLogin => "email"
    case KakaoLogin => "kakao"
    case AppleLogin => "apple"
  }

  datatype AuthAction =
    | SetError(message: string)
    | ClearError
    | SetSessionState(state: AuthState)
    | SaveTokens(accessToken: string, refreshToken: string)
    | ClearTokens
    | SetLoggedIn(isLoggedIn: bool)
    | SetLoginSuccess(success: bool)
    | SetJoinSuccess(joinSuccess: bool)
    | SetEmailValidationResult(result: string)

  /** The published fields together with the token store's two tokens. */
  datatype Snapshot = Snapshot(
    sessionState: AuthState,
    emailValidationResult: string,
    errorMessage: string,
    isLoggedIn: bool,
    loginSuccess: bool,
    joinSuccess: bool,
    accessToken: string,
    refreshToken: string)

  /** What one `dispatch` does to the snapshot. */
  function Apply(s: Snapshot, a: AuthAction): Snapshot
  {
    match a
    case SetError(m) => s.(errorMessage := m)
    case ClearError => s.(errorMessage := "")
    case SetSessionState(st) => s.(sessionState := st)
    case SaveTokens(at, rt) => s.(accessToken := at, refreshToken := rt)
    case ClearTokens => s.(accessToken := "", refreshToken := "")
    case SetLoggedIn(b) => s.(isLoggedIn := b)
    case SetLoginSuccess(b) => s.(loginSuccess := b)
    case SetJoinSuccess(b) => s.(joinSuccess := b)
    case SetEmailValidationResult(r) => s.(emailValidationResult := r)
  }

  datatype Field =
    | SessionStateField | EmailValidationResultField | ErrorMessageField | IsLoggedInField
    | LoginSuccessField | JoinSuccessField | AccessTokenField | RefreshTokenField

  /** The fields on which two snapshots differ. */
  function ChangedFields(s: Snapshot, t: Snapshot): set<Field>
  {
    (if s.sessionState != t.sessionState then {SessionStateField} else {}) +
    (if s.emailValidationResult != t.emailValidationResult then {EmailValidationResultField} else {}) +
    (if s.errorMessage != t.errorMessage then {ErrorMessageField} else {}) +
    (if s.isLoggedIn != t.isLoggedIn then {IsLoggedInField} else {}) +
    (if s.loginSuccess != t.loginSuccess then {LoginSuccessField} else {}) +
    (if s.joinSuccess != t.joinSuccess then {JoinSuccessField} else {}) +
    (if s.accessToken != t.accessToken then {AccessTokenField} else {}) +
    (if s.refreshToken != t.refreshToken then {RefreshTokenField} else {})
  }

  /** The fields an action names. */
  function NamedFields(a: AuthAction): set<Field>
  {
    match a
    case SetError(_) => {ErrorMessageField}
    case ClearError => {ErrorMessageField}
    case SetSessionState(_) => {SessionStateField}
    case SaveTokens(_, _) => {AccessTokenField, RefreshTokenField}
    case ClearTokens => {AccessTokenField, RefreshTokenField}
    case SetLoggedIn(_) => {IsLoggedInField}
    case SetLoginSuccess(_) => {LoginSuccessField}
    case SetJoinSuccess(_) => {JoinSuccessField}
    case SetEmailValidationResult(_) => {EmailValidationResultField}
  }

  /** Each action changes only the field it names, and sets it to the
    * carried value; the token store changes only for the two token
    * actions. */
  lemma DispatchChangesOnlyNamedField(s: Snapshot, a: AuthAction)
    ensures ChangedFields(s, Apply(s, a)) <= NamedFields(a)
    ensures !(a.SaveTokens? || a.ClearTokens?) ==>
      Apply(s, a).accessToken == s.accessToken && Apply(s, a).refreshToken == s.refreshToken
    ensures a.SaveTokens? ==>
      Apply(s, a).accessToken == a.accessToken && Apply(s, a).refreshToken == a.refreshToken
  {
  }

  /** The message `handleError` stores: a NetworkError's own description,
    * any other error's description after the default text. */
  function ErrorMessageFor(f: Failure, defaultMessage: string): (m: string)
    ensures f.isNetworkError ==> m == f.description
    ensures !f.isNetworkError ==> m == defaultMessage + ": " + f.description
  {
    if f.isNetworkError then f.description else defaultMessage + ": " + f.description
  }

  datatype TokenPair = TokenPair(accessToken: string, refreshToken: string)

  const SessionExpiredMessage := "세션이 만료되었습니다. 다시 로그인해주세요."
  const RefreshFailedDefault := "토큰 갱신 실패"

  /** The state `init` sets up from the token store. */
  function InitialSessionState(accessToken: string, refreshToken: string): AuthState
  {
    if TokenStore.LoggedIn(accessToken, refreshToken) then
      if TokenStore.AccessTokenExpired(accessToken) then Expired else Active
    else Initial
  }

  /** Because expiry is only an empty access token, a logged-in store is
    * never expired: `init` never produces `expired`. */
  lemma InitIsNeverExpired(accessToken: string, refreshToken: string)
    ensures InitialSessionState(accessToken, refreshToken) != Expired
    ensures InitialSessionState(accessToken, refreshToken) == Active <==>
      TokenStore.LoggedIn(accessToken, refreshToken)
  {
  }

  /** The net effect of `handleSessionExpiration`. */
  function Expire(s: Snapshot): (t: Snapshot)
    ensures t.accessToken == "" && t.refreshToken == "" && !t.isLoggedIn && !t.loginSuccess
    ensures t.sessionState == Expired && t.errorMessage == SessionExpiredMessage
    ensures t.joinSuccess == s.joinSuccess && t.emailValidationResult == s.emailValidationResult
  {
    s.(accessToken := "", refreshToken := "", isLoggedIn := false, loginSuccess := false,
       sessionState := Expired, errorMessage := SessionExpiredMessage)
  }

  /** The net effect of `logout`: expiry, but with the error cleared. */
  function LoggedOut(s: Snapshot): (t: Snapshot)
    ensures t == Expire(s).(errorMessage := "")
  {
    s.(accessToken := "", refreshToken := "", isLoggedIn := false, loginSuccess := false,
       sessionState := Expired, errorMessage := "")
  }

  /** The request a refresh sends from snapshot `s`. */
  function RefreshRequest(env: Environment, s: Snapshot): (r: Endpoint)
    ensures r.path == "/auth/refresh" && r.networkMethod == Get && r.body.None?
  {
    AuthEndpoints.Describe(env, AuthEndpoints.Refresh(s.refreshToken), s.accessToken)
  }

  /** What the refresh yields: `rawRequest`'s result, with a thrown error
    * turned into the caught error `handleError` receives. */
  function RefreshOutcome(env: Environment, s: Snapshot, response: NetworkServices.Response<TokenPair>,
                          networkErrorText: string): (outcome: Result<TokenPair, Failure>)
    ensures outcome.Ok? <==> NetworkServices.RawRequest(RefreshRequest(env, s), response).result.Ok?
  {
    match NetworkServices.RawRequest(RefreshRequest(env, s), response).result
    case Ok(tokens) => Ok(tokens)
    case Err(e) => Err(FailureOf(e, networkErrorText))
  }

  /** The net effect of a completed refresh (the guard passed). */
  function Refreshed(s: Snapshot, outcome: Result<TokenPair, Failure>): (t: Snapshot)
    ensures outcome.Ok? ==>
      t == s.(accessToken := outcome.value.accessToken, refreshToken := outcome.value.refreshToken,
              sessionState := Active)
    ensures outcome.Err? ==>
      t == s.(errorMessage := ErrorMessageFor(outcome.error, RefreshFailedDefault), sessionState := Expired)
    ensures outcome.Err? ==> t.accessToken == s.accessToken && t.refreshToken == s.refreshToken
  {
    match outcome
    case Ok(tokens) =>
      s.(accessToken := tokens.accessToken, refreshToken := tokens.refreshToken, sessionState := Active)
    case Err(f) =>
      s.(errorMessage := ErrorMessageFor(f, RefreshFailedDefault), sessionState := Expired)
  }

  /** Which success flag a sign-in flow resets and then sets. */
  datatype SuccessFlag = LoginFlag | JoinFlag

  function SetFlag(s: Snapshot, flag: SuccessFlag, value: bool): Snapshot
  {
    match flag
    case LoginFlag => s.(loginSuccess := value)
    case JoinFlag => s.(joinSuccess := value)
  }

  /** The net effect of `login`, `join`, `kakaoLogin` and `appleLogin`: the
    * flag is cleared first; success saves the tokens and ends active and
    * logged in with the flag set; failure only stores the error. */
  function SignedIn(s: Snapshot, outcome: Result<TokenPair, Failure>, flag: SuccessFlag, defaultMessage: string): (t: Snapshot)
    ensures outcome.Err? ==>
      t == SetFlag(s, flag, false).(errorMessage := ErrorMessageFor(outcome.error, defaultMessage))
    ensures outcome.Ok? ==>
      t.accessToken == outcome.value.accessToken && t.refreshToken == outcome.value.refreshToken &&
      t.sessionState == Active && t.isLoggedIn && t.errorMessage == s.errorMessage
    ensures outcome.Ok? ==> (if flag.LoginFlag? then t.loginSuccess else t.joinSuccess)
  {
    var cleared := SetFlag(s, flag, false);
    match outcome
    case Ok(tokens) =>
      SetFlag(cleared.(accessToken := tokens.accessToken, refreshToken := tokens.refreshToken,
                       sessionState := Active, isLoggedIn := true), flag, true)
    case Err(f) => cleared.(errorMessage := ErrorMessageFor(f, defaultMessage))
  }

  /** The net effect of `emailValidation`: the server's message, or the
    * stored error message, becomes the validation result. */
  function EmailValidated(s: Snapshot, outcome: Result<string, Failure>): (t: Snapshot)
    ensures outcome.Ok? ==> t == s.(errorMessage := "", emailValidationResult := outcome.value)
    ensures outcome.Err? ==> t.emailValidationResult == t.errorMessage
  {
    match outcome
    case Ok(message) => s.(errorMessage := "", emailValidationResult := message)
    case Err(f) =>
      var m := ErrorMessageFor(f, "이메일 유효성 검사 실패");
      s.(errorMessage := m, emailValidationResult := m)
  }

  /** `checkSessionValidity` from a snapshot: whether it tries a refresh,
    * and the state it ends in. A refresh already in flight makes the
    * guarded refresh return false, and the session is then expired. */
  function SessionChecked(s: Snapshot, outcome: Result<TokenPair, Failure>): (t: Snapshot)
    ensures !(s.isLoggedIn && s.accessToken == "") ==> t == s
    ensures s.isLoggedIn && s.accessToken == "" && s.sessionState == Refreshing ==> t == Expire(s)
    ensures s.isLoggedIn && s.accessToken == "" && s.sessionState != Refreshing && outcome.Ok? ==>
      t == Refreshed(s, outcome)
    ensures s.isLoggedIn && s.accessToken == "" && s.sessionState != Refreshing && outcome.Err? ==>
      t == Expire(Refreshed(s, outcome))
  {
    if !(s.isLoggedIn && TokenStore.AccessTokenExpired(s.accessToken)) then s
    else if s.sessionState == Refreshing then Expire(s)
    else if outcome.Ok? then Refreshed(s, outcome)
    else Expire(Refreshed(s, outcome))
  }

  class AuthModel {
    const tokenManager: TokenStore.TokenManager
    var sessionState: AuthState
    var emailValidationResult: string
    var errorMessage: string
    var isLoggedIn: bool
    var loginSuccess: bool
    var joinSuccess: bool
    /** The persisted last sign-in type and time (seconds since 1970; the
      * time is an integer stand-in for the stored `Double`). */
    var lastLoginTypeRaw: string
    var lastLoginDateRaw: int

    function State(): Snapshot
      reads this, tokenManager
    {
      Snapshot(sessionState, emailValidationResult, errorMessage, isLoggedIn, loginSuccess,
               joinSuccess, tokenManager.accessToken, tokenManager.refreshToken)
    }

    /** `init`: mirrors the store's login state and, when logged in, picks
      * `expired` or `active` from the access token. */
    constructor(tm: TokenStore.TokenManager, storedLoginType: string, storedLoginDate: int)
      ensures tokenManager == tm
      ensures State() == Snapshot(InitialSessionState(tm.accessToken, tm.refreshToken), "", "",
                                  tm.IsLoggedIn(), false, false, tm.accessToken, tm.refreshToken)
      ensures lastLoginTypeRaw == storedLoginType && lastLoginDateRaw == storedLoginDate
    {
      tokenManager := tm;
      sessionState := Initial;
      emailValidationResult := "";
      errorMessage := "";
      loginSuccess := false;
      joinSuccess := false;
      lastLoginTypeRaw := storedLoginType;
      lastLoginDateRaw := storedLoginDate;
      isLoggedIn := tm.IsLoggedIn();
      new;
      // The source dispatches `setSessionState` here; the assignment is
      // what that dispatch does.
      if isLoggedIn {
        sessionState := if tm.IsAccessTokenExpired() then Expired else Active;
      }
    }

    function LastLoginType(): (t: Option<LoginType>)
      reads this
      ensures t.Some? ==> LoginTypeRawValue(t.value) == lastLoginTypeRaw
    {
      LoginTypeFromRawValue(lastLoginTypeRaw)
    }

    /** No date is reported unless a positive time was stored. */
    function LastLoginDate(): (d: Option<int>)
      reads this
      ensures d.Some? <==> lastLoginDateRaw > 0
      ensures d.Some? ==> d.value == lastLoginDateRaw
    {
      if lastLoginDateRaw > 0 then Some(lastLoginDateRaw) else None
    }

    method SaveLastLoginInfo(t: LoginType, now: int)
      modifies this
      ensures lastLoginTypeRaw == LoginTypeRawValue(t) && lastLoginDateRaw == now
      ensures LastLoginType() == Some(t)
      ensures State() == old(State())
    {
      lastLoginTypeRaw := LoginTypeRawValue(t);
      lastLoginDateRaw := now;
    }

    /** `dispatch`: every state change goes through here. */
    method Dispatch(a: AuthAction)
      modifies this, tokenManager
      ensures State() == Apply(old(State()), a)
      ensures lastLoginTypeRaw == old(lastLoginTypeRaw) && lastLoginDateRaw == old(lastLoginDateRaw)
    {
      match a {
        case SetError(m) => errorMessage := m;
        case ClearError => errorMessage := "";
        case SetSessionState(st) => sessionState := st;
        case SaveTokens(at, rt) => tokenManager.SaveTokens(at, rt);
        case ClearTokens => tokenManager.ClearTokens();
        case SetLoggedIn(b) => isLoggedIn := b;
        case SetLoginSuccess(b) => loginSuccess := b;
        case SetJoinSuccess(b) => joinSuccess := b;
        case SetEmailValidationResult(r) => emailValidationResult := r;
      }
    }

    method HandleError(f: Failure, defaultMessage: string)
      modifies this, tokenManager
      ensures State() == old(State()).(errorMessage := ErrorMessageFor(f, defaultMessage))
      ensures lastLoginTypeRaw == old(lastLoginTypeRaw) && lastLoginDateRaw == old(lastLoginDateRaw)
    {
      Dispatch(SetError(ErrorMessageFor(f, defaultMessage)));
    }

    /** `handleSessionExpiration`. */
    method HandleSessionExpiration()
      modifies this, tokenManager
      ensures State() == Expire(old(State()))
      ensures lastLoginTypeRaw == old(lastLoginTypeRaw) && lastLoginDateRaw == old(lastLoginDateRaw)
    {
      Dispatch(ClearTokens);
      Dispatch(SetLoggedIn(false));
      Dispatch(SetLoginSuccess(false));
      Dispatch(SetSessionState(Expired));
      Dispatch(SetError(SessionExpiredMessage));
    }

    /** `logout`. */
    method Logout()
      modifies this, tokenManager
      ensures State() == LoggedOut(old(State()))
      ensures lastLoginTypeRaw == old(lastLoginTypeRaw) && lastLoginDateRaw == old(lastLoginDateRaw)
    {
      Dispatch(ClearTokens);
      Dispatch(SetLoggedIn(false));
      Dispatch(SetLoginSuccess(false));
      Dispatch(SetSessionState(Expired));
      Dispatch(ClearError);
    }

    /** `handleTokenRefreshNeeded`: refuses while a refresh is running;
      * otherwise sends the refresh request through `rawRequest` (no
      * middleware) and saves the new tokens or expires the session.
      * `response` is what the server answers; `networkErrorText` is the
      * description of a thrown NetworkError. */
    method HandleTokenRefreshNeeded(env: Environment, response: NetworkServices.Response<TokenPair>,
                                    networkErrorText: string)
      returns (ok: bool, sent: Option<Endpoint>)
      modifies this, tokenManager
      ensures old(sessionState) == Refreshing ==> !ok && sent.None? && State() == old(State())
      ensures old(sessionState) != Refreshing ==>
        var outcome := RefreshOutcome(env, old(State()), response, networkErrorText);
        sent == Some(RefreshRequest(env, old(State()))) && ok == outcome.Ok? &&
        State() == Refreshed(old(State()), outcome)
      ensures lastLoginTypeRaw == old(lastLoginTypeRaw) && lastLoginDateRaw == old(lastLoginDateRaw)
    {
      if sessionState == Refreshing {
        return false, None;
      }
      Dispatch(SetSessionState(Refreshing));
      var request := AuthEndpoints.Describe(env, AuthEndpoints.Refresh(tokenManager.refreshToken),
                                            tokenManager.accessToken);
      sent := Some(request);
      var raw := NetworkServices.RawRequest(request, response).result;
      match raw {
        case Ok(tokens) =>
          Dispatch(SaveTokens(tokens.accessToken, tokens.refreshToken));
          Dispatch(SetSessionState(Active));
          ok := true;
        case Err(e) =>
          HandleError(FailureOf(e, networkErrorText), RefreshFailedDefault);
          Dispatch(SetSessionState(Expired));
          ok := false;
      }
    }

    /** `checkSessionValidity`, with the refresh task run to completion. */
    method CheckSessionValidity(env: Environment, response: NetworkServices.Response<TokenPair>,
                                networkErrorText: string)
      returns (attempted: bool)
      modifies this, tokenManager
      ensures attempted <==> old(isLoggedIn) && old(tokenManager.accessToken) == ""
      ensures State() == SessionChecked(old(State()), RefreshOutcome(env, old(State()), response, networkErrorText))
      ensures lastLoginTypeRaw == old(lastLoginTypeRaw) && lastLoginDateRaw == old(lastLoginDateRaw)
    {
      attempted := isLoggedIn && tokenManager.IsAccessTokenExpired();
      if attempted {
        var ok, _ := HandleTokenRefreshNeeded(env, response, networkErrorText);
        if !ok {
          HandleSessionExpiration();
        }
      }
    }

    /** `emailValidation`. */
    method EmailValidation(email: string, outcome: Result<string, Failure>)
      returns (endpoint: UserEndpoints.UserEndpoint)
      modifies this, tokenManager
      ensures endpoint == UserEndpoints.ValidateEmail(email)
      ensures State() == EmailValidated(old(State()), outcome)
      ensures lastLoginTypeRaw == old(lastLoginTypeRaw) && lastLoginDateRaw == old(lastLoginDateRaw)
    {
      endpoint := UserEndpoints.ValidateEmail(email);
      Dispatch(ClearError);
      match outcome {
        case Ok(message) =>
          Dispatch(SetEmailValidationResult(message));
        case Err(f) =>
          HandleError(f, "이메일 유효성 검사 실패");
          Dispatch(SetEmailValidationResult(errorMessage));
      }
    }

    /** The success and failure paths shared by the four sign-in flows. */
    method CompleteSignIn(outcome: Result<TokenPair, Failure>, flag: SuccessFlag, t: LoginType,
                          defaultMessage: string, now: int)
      modifies this, tokenManager
      ensures State() == SignedIn(old(State()), outcome, flag, defaultMessage)
      ensures outcome.Ok? ==> lastLoginTypeRaw == LoginTypeRawValue(t) && lastLoginDateRaw == now
      ensures outcome.Err? ==> lastLoginTypeRaw == old(lastLoginTypeRaw) && lastLoginDateRaw == old(lastLoginDateRaw)
    {
      ghost var cleared := SetFlag(State(), flag, false);
      Dispatch(if flag.LoginFlag? then SetLoginSuccess(false) else SetJoinSuccess(false));
      assert State() == cleared;
      match outcome {
        case Ok(tokens) =>
          Dispatch(SaveTokens(tokens.accessToken, tokens.refreshToken));
          Dispatch(SetSessionState(Active));
          Dispatch(SetLoggedIn(true));
          assert State() == cleared.(accessToken := tokens.accessToken, refreshToken := tokens.refreshToken,
                                     sessionState := Active, isLoggedIn := true);
          Dispatch(if flag.LoginFlag? then SetLoginSuccess(true) else SetJoinSuccess(true));
          SaveLastLoginInfo(t, now);
        case Err(f) =>
          HandleError(f, defaultMessage);
      }
    }

    /** `login` with email and password. */
    method Login(email: string, password: string, deviceToken: string,
                 outcome: Result<TokenPair, Failure>, now: int)
      returns (endpoint: UserEndpoints.UserEndpoint)
      modifies this, tokenManager
      ensures endpoint == UserEndpoints.Login(email, password, deviceToken)
      ensures State() == SignedIn(old(State()), outcome, LoginFlag, "로그인에 실패하였습니다")
      ensures outcome.Ok? ==> LastLoginType() == Some(EmailLogin) && lastLoginDateRaw == now
      ensures outcome.Err? ==> lastLoginTypeRaw == old(lastLoginTypeRaw) && lastLoginDateRaw == old(lastLoginDateRaw)
    {
      endpoint := UserEndpoints.Login(email, password, deviceToken);
      CompleteSignIn(outcome, LoginFlag, EmailLogin, "로그인에 실패하였습니다", now);
    }

    /** `join`, which the source sends through `rawRequest`. */
    method Join(email: string, password: string, nick: string, phoneNum: string, deviceToken: string,
                outcome: Result<TokenPair, Failure>, now: int)
      returns (endpoint: UserEndpoints.UserEndpoint)
      modifies this, tokenManager
      ensures endpoint == UserEndpoints.Join(email, password, nick, phoneNum, deviceToken)
      ensures State() == SignedIn(old(State()), outcome, JoinFlag, "회원가입 실패")
      ensures outcome.Ok? ==> LastLoginType() == Some(EmailLogin) && lastLoginDateRaw == now
      ensures outcome.Err? ==> lastLoginTypeRaw == old(lastLoginTypeRaw) && lastLoginDateRaw == old(lastLoginDateRaw)
    {
      endpoint := UserEndpoints.Join(email, password, nick, phoneNum, deviceToken);
      CompleteSignIn(outcome, JoinFlag, EmailLogin, "회원가입 실패", now);
    }

    method KakaoLoginFlow(oauthToken: string, deviceToken: string,
                          outcome: Result<TokenPair, Failure>, now: int)
      returns (endpoint: UserEndpoints.UserEndpoint)
      modifies this, tokenManager
      ensures endpoint == UserEndpoints.KakaoLogin(oauthToken, deviceToken)
      ensures State() == SignedIn(old(State()), outcome, LoginFlag, "카카오 로그인 실패")
      ensures outcome.Ok? ==> LastLoginType() == Some(KakaoLogin) && lastLoginDateRaw == now
      ensures outcome.Err? ==> lastLoginTypeRaw == old(lastLoginTypeRaw) && lastLoginDateRaw == old(lastLoginDateRaw)
    {
      endpoint := UserEndpoints.KakaoLogin(oauthToken, deviceToken);
      CompleteSignIn(outcome, LoginFlag, KakaoLogin, "카카오 로그인 실패", now);
    }

    method AppleLoginFlow(idToken: string, deviceToken: string, nick: Option<string>,
                          outcome: Result<TokenPair, Failure>, now: int)
      returns (endpoint: UserEndpoints.UserEndpoint)
      modifies this, tokenManager
      ensures endpoint == UserEndpoints.AppleLogin(idToken, deviceToken, nick)
      ensures State() == SignedIn(old(State()), outcome, LoginFlag, "애플 로그인 실패")
      ensures outcome.Ok? ==> LastLoginType() == Some(AppleLogin) && lastLoginDateRaw == now
      ensures outcome.Err? ==> lastLoginTypeRaw == old(lastLoginTypeRaw) && lastLoginDateRaw == old(lastLoginDateRaw)
    {
      endpoint := UserEndpoints.AppleLogin(idToken, deviceToken, nick);
      CompleteSignIn(outcome, LoginFlag, AppleLogin, "애플 로그인 실패", now);
    }
  }
}
