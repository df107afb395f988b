// The e-mail sign-up screen: one validator per field that runs on every
// text change, the server's duplicate-address verdict, and the form-level
// check that enables the sign-up button.
module SignUpScreens {
  import opened Wrappers
  import opened InputFields
  import Text

  const EmailEmptyMessage := "이메일을 입력해주세요."
  const EmailFormatMessage := "유효한 이메일 형식이 아닙니다."
  const EmailCheckingMessage := "이메일 확인 중..."
  const NickEmptyMessage := "닉네임을 입력해주세요."
  const NickCharacterMessage := "닉네임에는 ., ,, ?, *, -, @ 문자를 사용할 수 없습니다."
  const PhoneDigitsMessage := "전화번호는 숫자만 입력 가능합니다."
  const PhoneFormatMessage := "유효한 전화번호 형식이 아닙니다."
  const PasswordEmptyMessage := "비밀번호를 입력해주세요."
  const PasswordLengthMessage := "비밀번호는 최소 8자 이상이어야 합니다."
  const PasswordClassesMessage := "비밀번호는 영문자, 숫자, 특수문자(@$!%*#?&)를 각각 1개 이상 포함해야 합니다."
  const ConfirmEmptyMessage := "비밀번호 확인을 입력해주세요."
  const ConfirmMismatchMessage := "비밀번호가 일치하지 않습니다."

  /** The server's reply text that marks an address as free. */
  const AvailableMarker := "사용 가능"

  /** Characters a nickname may not contain. */
  const NickForbidden := ['.', ',', '?', '*', '-', '@']

  /** The special characters a password needs one of. */
  const PasswordSpecials := ['@', '$', '!', '%', '*', '#', '?', '&']

  predicate HasLetter(s: string) { exists i :: 0 <= i < |s| && Text.IsAsciiLetter(s[i]) }
  predicate HasDigit(s: string) { exists i :: 0 <= i < |s| && Text.IsAsciiDigit(s[i]) }
  predicate HasSpecial(s: string) { exists i :: 0 <= i < |s| && s[i] in PasswordSpecials }

  /** The three character classes a password must each contain. */
  predicate PasswordRulesHold(s: string)
  {
    |s| >= 8 && HasLetter(s) && HasDigit(s) && HasSpecial(s)
  }

  predicate NickRulesHold(s: string)
  {
    s != [] && forall i :: 0 <= i < |s| ==> s[i] !in NickForbidden
  }

  /** Optional, so empty is fine; otherwise digits once the hyphens are
    * dropped, ten or eleven of them. */
  predicate PhoneRulesHold(s: string)
  {
    var digits := Text.RemoveChar(s, '-');
    s == [] || ((forall i :: 0 <= i < |digits| ==> Text.IsAsciiDigit(digits[i])) && 10 <= |digits| <= 11)
  }

  /** `handleEmailChange`'s verdict; `wellFormed` is the address pattern's
    * answer. A well-formed address waits for the server. */
  function EmailVerdict(email: string, wellFormed: bool): (v: ValidationState)
    ensures email == [] ==> v == Invalid(EmailEmptyMessage)
    ensures email != [] && !wellFormed ==> v == Invalid(EmailFormatMessage)
    ensures email != [] && wellFormed ==> v == Loading(EmailCheckingMessage)
  {
    if email == [] then Invalid(EmailEmptyMessage)
    else if !wellFormed then Invalid(EmailFormatMessage)
    else Loading(EmailCheckingMessage)
  }

  function NickVerdict(nick: string): (v: ValidationState)
    ensures v.Valid? || v.Invalid?
  {
    if nick == [] then Invalid(NickEmptyMessage)
    else if exists i :: 0 <= i < |nick| && nick[i] in NickForbidden then Invalid(NickCharacterMessage)
    else Valid(None)
  }

  function PhoneVerdict(phone: string): (v: ValidationState)
    ensures v.Valid? || v.Invalid?
  {
    if phone == [] then Valid(None)
    else
      var digits := Text.RemoveChar(phone, '-');
      if !(forall i :: 0 <= i < |digits| ==> Text.IsAsciiDigit(digits[i])) then Invalid(PhoneDigitsMessage)
      else if |digits| < 10 || |digits| > 11 then Invalid(PhoneFormatMessage)
      else Valid(None)
  }

  function PasswordVerdict(password: string): (v: ValidationState)
    ensures v.Valid? || v.Invalid?
  {
    if password == [] then Invalid(PasswordEmptyMessage)
    else if |password| < 8 then Invalid(PasswordLengthMessage)
    else if !(HasLetter(password) && HasDigit(password) && HasSpecial(password)) then Invalid(PasswordClassesMessage)
    else Valid(None)
  }

  function ConfirmVerdict(confirm: string, password: string): (v: ValidationState)
    ensures v.Valid? || v.Invalid?
  {
    if confirm == [] then Invalid(ConfirmEmptyMessage)
    else if confirm != password then Invalid(ConfirmMismatchMessage)
    else Valid(None)
  }

  /** The duplicate check's answer shown under the e-mail field. */
  function DuplicationVerdict(serverText: string): (v: ValidationState)
    ensures Text.Contains(serverText, AvailableMarker) ==> v == Valid(Some(serverText))
    ensures !Text.Contains(serverText, AvailableMarker) ==> v == Invalid(serverText)
  {
    if Text.Contains(serverText, AvailableMarker) then Valid(Some(serverText)) else Invalid(serverText)
  }

  lemma NickVerdictValidIff(nick: string)
    ensures NickVerdict(nick).Valid? <==> NickRulesHold(nick)
  {
  }

  lemma PhoneVerdictValidIff(phone: string)
    ensures PhoneVerdict(phone).Valid? <==> PhoneRulesHold(phone)
  {
  }

  lemma PasswordVerdictValidIff(password: string)
    ensures PasswordVerdict(password).Valid? <==> PasswordRulesHold(password)
  {
  }

  lemma ConfirmVerdictValidIff(confirm: string, password: string)
    ensures ConfirmVerdict(confirm, password).Valid? <==> confirm != [] && confirm == password
  {
  }

  /** The screen's form: the texts and one validation state per field. */
  datatype EmailSignUpScreenState = EmailSignUpScreenState(
    email: string,
    password: string,
    confirmPassword: string,
    nick: string,
    phoneNum: string,
    emailValidationState: ValidationState,
    passwordValidationState: ValidationState,
    confirmPasswordValidationState: ValidationState,
    nickValidationState: ValidationState,
    phoneNumValidationState: ValidationState,
    isLoading: bool)
  {
    /** Every required field is valid, and the phone number is empty or
      * valid. */
    predicate IsFormValid()
    {
      IsValid(emailValidationState) && IsValid(nickValidationState)
      && IsValid(passwordValidationState) && IsValid(confirmPasswordValidationState)
      && (phoneNum == [] || IsValid(phoneNumValidationState))
    }

    /** What the validators keep true: a field marked valid holds a value
      * its rules accept, and a valid confirmation matches a valid
      * password. `wellFormed` is the e-mail pattern. */
    predicate Consistent(wellFormed: string -> bool)
    {
      (emailValidationState.Valid? ==> wellFormed(email))
      && (nickValidationState.Valid? ==> NickRulesHold(nick))
      && (phoneNumValidationState.Valid? ==> PhoneRulesHold(phoneNum))
      && (passwordValidationState.Valid? ==> PasswordRulesHold(password))
      && (passwordValidationState.Valid? && confirmPasswordValidationState.Valid? ==> confirmPassword == password)
    }
  }

  function InitialState(): (s: EmailSignUpScreenState)
    ensures !s.IsFormValid() && !s.isLoading
    ensures forall wellFormed: string -> bool :: s.Consistent(wellFormed)
  {
    EmailSignUpScreenState("", "", "", "", "", Initial, Initial, Initial, Initial, Initial, false)
  }

  /** A form the button accepts holds a well-formed address, an acceptable
    * nickname and password, a matching confirmation and an empty or
    * acceptable phone number. */
  lemma FormValidMeansFieldsAccepted(s: EmailSignUpScreenState, wellFormed: string -> bool)
    requires s.Consistent(wellFormed) && s.IsFormValid()
    ensures wellFormed(s.email) && NickRulesHold(s.nick) && PasswordRulesHold(s.password)
    ensures s.confirmPassword == s.password
    ensures s.phoneNum == [] || PhoneRulesHold(s.phoneNum)
  {
  }

  /** The screen, holding the form state; `isEmailValid` stands for the
    * address pattern. Each handler first receives the new text through
    * the field's binding, then the field's own text-change step, then
    * the validator. */
  class EmailSignUpScreen {
    var state: EmailSignUpScreenState
    const isEmailValid: string -> bool

    constructor(isEmailValid: string -> bool)
      ensures state == InitialState() && this.isEmailValid == isEmailValid
    {
      state := InitialState();
      this.isEmailValid := isEmailValid;
    }

    predicate Consistent()
      reads this
    {
      state.Consistent(isEmailValid)
    }

    method HandleEmailChange(email: string)
      requires Consistent()
      modifies this
      ensures Consistent()
      ensures state == old(state).(email := email, emailValidationState := EmailVerdict(email, isEmailValid(email)))
    {
      state := state.(email := email, emailValidationState := AfterTextChange(state.emailValidationState));
      if email == [] {
        state := state.(emailValidationState := Invalid(EmailEmptyMessage));
        return;
      }
      if !isEmailValid(state.email) {
        state := state.(emailValidationState := Invalid(EmailFormatMessage));
        return;
      }
      state := state.(emailValidationState := Loading(EmailCheckingMessage));
    }

    method HandleNickChange(nick: string)
      requires Consistent()
      modifies this
      ensures Consistent()
      ensures state == old(state).(nick := nick, nickValidationState := NickVerdict(nick))
    {
      state := state.(nick := nick, nickValidationState := AfterTextChange(state.nickValidationState));
      if nick == [] {
        state := state.(nickValidationState := Invalid(NickEmptyMessage));
        return;
      }
      if exists i :: 0 <= i < |nick| && nick[i] in NickForbidden {
        state := state.(nickValidationState := Invalid(NickCharacterMessage));
        return;
      }
      state := state.(nickValidationState := Valid(None));
    }

    method HandlePhoneNumChange(phoneNum: string)
      requires Consistent()
      modifies this
      ensures Consistent()
      ensures state == old(state).(phoneNum := phoneNum, phoneNumValidationState := PhoneVerdict(phoneNum))
    {
      state := state.(phoneNum := phoneNum, phoneNumValidationState := AfterTextChange(state.phoneNumValidationState));
      if phoneNum == [] {
        state := state.(phoneNumValidationState := Valid(None));
        return;
      }
      var digitsOnly := Text.RemoveChar(phoneNum, '-');
      if !(forall i :: 0 <= i < |digitsOnly| ==> Text.IsAsciiDigit(digitsOnly[i])) {
        state := state.(phoneNumValidationState := Invalid(PhoneDigitsMessage));
        return;
      }
      if |digitsOnly| < 10 || |digitsOnly| > 11 {
        state := state.(phoneNumValidationState := Invalid(PhoneFormatMessage));
        return;
      }
      state := state.(phoneNumValidationState := Valid(None));
    }

    /** Only an accepted password re-validates the confirmation; the early
      * returns leave it as it was. */
    method HandlePasswordChange(password: string)
      requires Consistent()
      modifies this
      ensures Consistent()
      ensures PasswordVerdict(password).Invalid? ==>
        state == old(state).(password := password, passwordValidationState := PasswordVerdict(password))
      ensures PasswordVerdict(password).Valid? ==>
        state == old(state).(password := password, passwordValidationState := Valid(None),
          confirmPasswordValidationState := ConfirmVerdict(old(state).confirmPassword, password))
    {
      state := state.(password := password, passwordValidationState := AfterTextChange(state.passwordValidationState));
      if password == [] {
        state := state.(passwordValidationState := Invalid(PasswordEmptyMessage));
        return;
      }
      if |password| < 8 {
        state := state.(passwordValidationState := Invalid(PasswordLengthMessage));
        return;
      }
      if !(HasLetter(password) && HasDigit(password) && HasSpecial(password)) {
        state := state.(passwordValidationState := Invalid(PasswordClassesMessage));
        return;
      }
      state := state.(passwordValidationState := Valid(None));
      ConfirmPasswordCheck(state.confirmPassword);
    }

    method HandleConfirmPasswordChange(confirmPassword: string)
      requires Consistent()
      modifies this
      ensures Consistent()
      ensures state == old(state).(confirmPassword := confirmPassword,
        confirmPasswordValidationState := ConfirmVerdict(confirmPassword, old(state).password))
    {
      state := state.(confirmPassword := confirmPassword,
        confirmPasswordValidationState := AfterTextChange(state.confirmPasswordValidationState));
      ConfirmPasswordCheck(confirmPassword);
    }

    /** The confirmation validator itself, also run by the password
      * handler. */
    method ConfirmPasswordCheck(confirmPassword: string)
      modifies this
      ensures state == old(state).(confirmPasswordValidationState := ConfirmVerdict(confirmPassword, old(state).password))
    {
      if confirmPassword == [] {
        state := state.(confirmPasswordValidationState := Invalid(ConfirmEmptyMessage));
        return;
      }
      if confirmPassword != state.password {
        state := state.(confirmPasswordValidationState := Invalid(ConfirmMismatchMessage));
        return;
      }
      state := state.(confirmPasswordValidationState := Valid(None));
    }

    /** The server's verdict for `email`, applied only while the address in
      * the form (which may have changed meanwhile) is still well-formed. */
    method CheckEmailDuplication(email: string, serverText: string)
      requires Consistent()
      modifies this
      ensures Consistent()
      ensures email == [] || !isEmailValid(old(state).email) ==> state == old(state)
      ensures email != [] && isEmailValid(old(state).email) ==>
        state == old(state).(emailValidationState := DuplicationVerdict(serverText))
    {
      if email == [] || !isEmailValid(state.email) {
        return;
      }
      state := state.(emailValidationState := DuplicationVerdict(serverText));
    }
  }
}
