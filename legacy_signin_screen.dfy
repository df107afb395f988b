// The older e-mail login form. Its password check is the newer form's
// turned round: a long password is flagged and a short one is not.
module LegacySignInScreens {
  import opened InputFields
  import SignUpScreens
  import SignInScreens

  const PasswordMessage := "비밀번호를 입력해주세요."

  /** The button needs both texts, and nothing else. */
  predicate IsLoginEnabled(email: string, password: string)
  {
    email != "" && password != ""
  }

  function PasswordVerdict(password: string): (v: ValidationState)
    ensures v.Invalid? <==> |password| >= 8
    ensures !v.Invalid? ==> v == Initial
  {
    if |password| >= 8 then Invalid(PasswordMessage) else Initial
  }

  /** The older button is the newer one without the loading guard, and it
    * enables login for every long password, which this form flags. */
  lemma LoginButtonIgnoresVerdicts(email: string, password: string)
    ensures IsLoginEnabled(email, password) <==> SignInScreens.IsLoginEnabled(email, password, false)
    ensures email != "" && |password| >= 8 ==> IsLoginEnabled(email, password) && PasswordVerdict(password).Invalid?
  {
  }

  /** Every password is flagged by exactly one of the two forms. */
  lemma PasswordRuleIsInverted(password: string)
    ensures PasswordVerdict(password).Invalid? <==> !SignInScreens.PasswordVerdict(password).Invalid?
  {
  }

  class EmailLoginView {
    var email: string
    var password: string
    var emailValidationState: ValidationState
    var passwordValidationState: ValidationState
    const isEmailValid: string -> bool

    constructor(email: string, password: string, isEmailValid: string -> bool)
      ensures this.email == email && this.password == password
      ensures emailValidationState == Initial && passwordValidationState == Initial
      ensures this.isEmailValid == isEmailValid
    {
      this.email := email;
      this.password := password;
      this.isEmailValid := isEmailValid;
      emailValidationState := Initial;
      passwordValidationState := Initial;
    }

    method EmailChanged(newEmail: string)
      modifies this
      ensures email == newEmail && emailValidationState == SignInScreens.EmailVerdict(newEmail, isEmailValid(newEmail))
      ensures password == old(password) && passwordValidationState == old(passwordValidationState)
    {
      email := newEmail;
      emailValidationState := AfterTextChange(emailValidationState);
      if newEmail == "" {
        emailValidationState := Invalid(SignUpScreens.EmailEmptyMessage);
      } else if isEmailValid(newEmail) {
        emailValidationState := Initial;
      } else {
        emailValidationState := Invalid(SignUpScreens.EmailFormatMessage);
      }
    }

    method PasswordChanged(newPassword: string)
      modifies this
      ensures password == newPassword && passwordValidationState == PasswordVerdict(newPassword)
      ensures email == old(email) && emailValidationState == old(emailValidationState)
    {
      password := newPassword;
      passwordValidationState := AfterTextChange(passwordValidationState);
      if |newPassword| >= 8 {
        passwordValidationState := Invalid(PasswordMessage);
      } else {
        passwordValidationState := Initial;
      }
    }
  }

  /** The container around the older form: its login only closes the
    * screen and authenticates nobody. */
  class EmailLoginContainer {
    var email: string
    var password: string
    var dismissed: bool

    constructor()
      ensures email == "" && password == "" && !dismissed
    {
      email, password, dismissed := "", "", false;
    }

    method Login()
      modifies this
      ensures dismissed && email == old(email) && password == old(password)
    {
      dismissed := true;
    }
  }
}
