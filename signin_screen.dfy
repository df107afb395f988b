// The e-mail login form of the sign-in screen and the label that shows how
// the user last signed in.
module SignInScreens {
  import opened InputFields
  import AuthModels
  import SignUpScreens

  const PasswordShortMessage := "비밀번호는 8자리 이상입니다."

  /** The login button's condition. */
  predicate IsLoginEnabled(email: string, password: string, isLoading: bool)
  {
    email != "" && password != "" && !isLoading
  }

  /** The button looks at neither field's verdict: while nothing loads, any
    * two non-empty texts enable it, even a short password the form flags or
    * an address the pattern rejects; an enabled button never goes with the
    * empty-address message. */
  lemma LoginButtonIgnoresVerdicts(email: string, password: string, isLoading: bool, wellFormed: bool)
    ensures isLoading ==> !IsLoginEnabled(email, password, isLoading)
    ensures !isLoading && email != "" && 0 < |password| < 8 ==>
      IsLoginEnabled(email, password, isLoading) && PasswordVerdict(password).Invalid?
    ensures !isLoading && email != "" && password != "" && !wellFormed ==>
      IsLoginEnabled(email, password, isLoading) && EmailVerdict(email, wellFormed).Invalid?
    ensures IsLoginEnabled(email, password, isLoading) ==>
      EmailVerdict(email, wellFormed) != Invalid(SignUpScreens.EmailEmptyMessage)
  {
  }

  /** The login form checks only the address pattern; a good address
    * returns the field to its untouched look rather than marking it
    * valid. */
  function EmailVerdict(email: string, wellFormed: bool): (v: ValidationState)
    ensures email == "" ==> v == Invalid(SignUpScreens.EmailEmptyMessage)
    ensures email != "" && wellFormed ==> v == Initial
    ensures email != "" && !wellFormed ==> v == Invalid(SignUpScreens.EmailFormatMessage)
  {
    if email == "" then Invalid(SignUpScreens.EmailEmptyMessage)
    else if wellFormed then Initial
    else Invalid(SignUpScreens.EmailFormatMessage)
  }

  /** Short passwords are flagged; anything longer is left unmarked. */
  function PasswordVerdict(password: string): (v: ValidationState)
    ensures v.Invalid? <==> |password| < 8
    ensures !v.Invalid? ==> v == Initial
  {
    if |password| < 8 then Invalid(PasswordShortMessage) else Initial
  }

  /** The symbol shown for each way of signing in. */
  function IconName(t: AuthModels.LoginType): (name: string)
    ensures t.EmailLogin? <==> name == "envelope.fill"
    ensures t.KakaoLogin? <==> name == "message.fill"
    ensures t.AppleLogin? <==> name == "applelogo"
  {
    match t
    case KakaoLogin => "message.fill"
    case AppleLogin => "applelogo"
    case EmailLogin => "envelope.fill"
  }

  /** Different sign-in kinds never share a symbol. */
  lemma IconNameInjective(a: AuthModels.LoginType, b: AuthModels.LoginType)
    ensures IconName(a) == IconName(b) <==> a == b
  {
  }

  /** The e-mail login form; `isEmailValid` stands for the address
    * pattern and `isLoading` is given by the screen around it. */
  class EmailLoginView {
    var email: string
    var password: string
    var emailValidationState: ValidationState
    var passwordValidationState: ValidationState
    var isLoading: bool
    const isEmailValid: string -> bool

    constructor(email: string, password: string, isLoading: bool, isEmailValid: string -> bool)
      ensures this.email == email && this.password == password && this.isLoading == isLoading
      ensures emailValidationState == Initial && passwordValidationState == Initial
      ensures this.isEmailValid == isEmailValid
    {
      this.email := email;
      this.password := password;
      this.isLoading := isLoading;
      this.isEmailValid := isEmailValid;
      emailValidationState := Initial;
      passwordValidationState := Initial;
    }

    /** The field's text-change step, then the validator. Neither field is
      * ever marked valid. */
    method EmailChanged(newEmail: string)
      modifies this
      ensures email == newEmail && emailValidationState == EmailVerdict(newEmail, isEmailValid(newEmail))
      ensures !emailValidationState.Valid?
      ensures password == old(password) && passwordValidationState == old(passwordValidationState)
      ensures isLoading == old(isLoading)
    {
      email := newEmail;
      emailValidationState := AfterTextChange(emailValidationState);
      if newEmail == "" {
        emailValidationState := Invalid(SignUpScreens.EmailEmptyMessage);
      } else if isEmailValid(newEmail) {
        emailValidationState := Initial;
      } else {
        emailValidationState := Invalid(SignUpScreens.EmailFormatMessage);
      }
    }

    method PasswordChanged(newPassword: string)
      modifies this
      ensures password == newPassword && passwordValidationState == PasswordVerdict(newPassword)
      ensures !passwordValidationState.Valid?
      ensures email == old(email) && emailValidationState == old(emailValidationState)
      ensures isLoading == old(isLoading)
    {
      password := newPassword;
      passwordValidationState := AfterTextChange(passwordValidationState);
      if |newPassword| < 8 {
        passwordValidationState := Invalid(PasswordShortMessage);
      } else {
        passwordValidationState := Initial;
      }
    }

    /** Submitting the password field logs in only when the button would be
      * enabled. */
    method SubmitPassword() returns (loginCalled: bool)
      ensures loginCalled <==> email != "" && password != "" && !isLoading
    {
      loginCalled := IsLoginEnabled(email, password, isLoading);
    }
  }
}
