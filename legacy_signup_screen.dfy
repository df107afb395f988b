// The older e-mail sign-up form: validity is computed from the texts
// themselves, and each validator writes a message text (empty for none).
module LegacySignUpScreens {
  import Text
  import opened SignUpScreens

  /** Server verdicts the e-mail message keeps, and the texts that block the
    * form while shown. */
  const TakenMarker := "이미 사용 중"
  const CheckingMarker := "확인 중"

  function NickText(nick: string): (t: string)
    ensures t == "" <==> NickRulesHold(nick)
  {
    if nick == [] then NickEmptyMessage
    else if !NickRulesHold(nick) then NickCharacterMessage
    else ""
  }

  function PasswordText(password: string): (t: string)
    ensures t == "" <==> PasswordRulesHold(password)
  {
    if password == [] then PasswordEmptyMessage
    else if |password| < 8 then PasswordLengthMessage
    else if !PasswordRulesHold(password) then PasswordClassesMessage
    else ""
  }

  function ConfirmText(confirm: string, password: string): (t: string)
    ensures t == "" <==> confirm != [] && confirm == password
  {
    if confirm == [] then ConfirmEmptyMessage
    else if password != confirm then ConfirmMismatchMessage
    else ""
  }

  function PhoneText(phone: string): (t: string)
    ensures t == "" <==> PhoneRulesHold(phone)
  {
    if phone == [] then ""
    else
      var digits := Text.RemoveChar(phone, '-');
      if !(forall i :: 0 <= i < |digits| ==> Text.IsAsciiDigit(digits[i])) then PhoneDigitsMessage
      else if |digits| < 10 || |digits| > 11 then PhoneFormatMessage
      else ""
  }

  /** A well-formed address keeps a server verdict already shown and
    * otherwise shows nothing. */
  function EmailText(email: string, wellFormed: bool, shown: string): (t: string)
    ensures email == [] ==> t == EmailEmptyMessage
    ensures email != [] && !wellFormed ==> t == EmailFormatMessage
    ensures email != [] && wellFormed ==>
      t == (if Text.Contains(shown, AvailableMarker) || Text.Contains(shown, TakenMarker) then shown else "")
  {
    if email == [] then EmailEmptyMessage
    else if !wellFormed then EmailFormatMessage
    else if !Text.Contains(shown, AvailableMarker) && !Text.Contains(shown, TakenMarker) then ""
    else shown
  }

  /** The form's texts and messages; `isEmailValid` stands for the address
    * pattern. */
  class EmailSignUpScreenState {
    var email: string
    var password: string
    var confirmPassword: string
    var nick: string
    var phoneNum: string
    var emailValidationText: string
    var passwordValidationText: string
    var confirmPasswordValidationText: string
    var nickValidationText: string
    var phoneNumValidationText: string
    var isLoading: bool
    const isEmailValid: string -> bool

    constructor(isEmailValid: string -> bool)
      ensures email == "" && password == "" && confirmPassword == "" && nick == "" && phoneNum == ""
      ensures emailValidationText == "" && passwordValidationText == "" && confirmPasswordValidationText == ""
      ensures nickValidationText == "" && phoneNumValidationText == "" && !isLoading
      ensures this.isEmailValid == isEmailValid
    {
      email, password, confirmPassword, nick, phoneNum := "", "", "", "", "";
      emailValidationText, passwordValidationText, confirmPasswordValidationText := "", "", "";
      nickValidationText, phoneNumValidationText := "", "";
      isLoading := false;
      this.isEmailValid := isEmailValid;
    }

    /** The button's condition: every rule met, and the e-mail message shows
      * neither a taken address nor a pending check. */
    predicate IsFormValid()
      reads this
    {
      isEmailValid(email) && NickRulesHold(nick) && PasswordRulesHold(password)
      && confirmPassword != [] && password == confirmPassword
      && !Text.Contains(emailValidationText, TakenMarker)
      && !Text.Contains(emailValidationText, CheckingMarker)
    }

    method ValidateEmail()
      modifies this
      ensures emailValidationText == EmailText(email, isEmailValid(email), old(emailValidationText))
      ensures passwordValidationText == old(passwordValidationText) && confirmPasswordValidationText == old(confirmPasswordValidationText)
      ensures nickValidationText == old(nickValidationText) && phoneNumValidationText == old(phoneNumValidationText)
      ensures email == old(email) && password == old(password) && confirmPassword == old(confirmPassword)
      ensures nick == old(nick) && phoneNum == old(phoneNum) && isLoading == old(isLoading)
    {
      if email == [] {
        emailValidationText := EmailEmptyMessage;
      } else if !isEmailValid(email) {
        emailValidationText := EmailFormatMessage;
      } else {
        if !Text.Contains(emailValidationText, AvailableMarker) && !Text.Contains(emailValidationText, TakenMarker) {
          emailValidationText := "";
        }
      }
    }

    method ValidateNick()
      modifies this
      ensures nickValidationText == NickText(nick)
      ensures emailValidationText == old(emailValidationText) && passwordValidationText == old(passwordValidationText)
      ensures confirmPasswordValidationText == old(confirmPasswordValidationText) && phoneNumValidationText == old(phoneNumValidationText)
      ensures email == old(email) && password == old(password) && confirmPassword == old(confirmPassword)
      ensures nick == old(nick) && phoneNum == old(phoneNum) && isLoading == old(isLoading)
    {
      if nick == [] {
        nickValidationText := NickEmptyMessage;
      } else if !NickRulesHold(nick) {
        nickValidationText := NickCharacterMessage;
      } else {
        nickValidationText := "";
      }
    }

    /** Always re-checks the confirmation as well. */
    method ValidatePassword()
      modifies this
      ensures passwordValidationText == PasswordText(password)
      ensures confirmPasswordValidationText == ConfirmText(confirmPassword, password)
      ensures emailValidationText == old(emailValidationText) && nickValidationText == old(nickValidationText)
      ensures phoneNumValidationText == old(phoneNumValidationText)
      ensures email == old(email) && password == old(password) && confirmPassword == old(confirmPassword)
      ensures nick == old(nick) && phoneNum == old(phoneNum) && isLoading == old(isLoading)
    {
      if password == [] {
        passwordValidationText := PasswordEmptyMessage;
      } else if |password| < 8 {
        passwordValidationText := PasswordLengthMessage;
      } else if !PasswordRulesHold(password) {
        passwordValidationText := PasswordClassesMessage;
      } else {
        passwordValidationText := "";
      }
      ValidateConfirmPassword();
    }

    method ValidateConfirmPassword()
      modifies this
      ensures confirmPasswordValidationText == ConfirmText(confirmPassword, password)
      ensures emailValidationText == old(emailValidationText) && passwordValidationText == old(passwordValidationText)
      ensures nickValidationText == old(nickValidationText) && phoneNumValidationText == old(phoneNumValidationText)
      ensures email == old(email) && password == old(password) && confirmPassword == old(confirmPassword)
      ensures nick == old(nick) && phoneNum == old(phoneNum) && isLoading == old(isLoading)
    {
      if confirmPassword == [] {
        confirmPasswordValidationText := ConfirmEmptyMessage;
      } else if password != confirmPassword {
        confirmPasswordValidationText := ConfirmMismatchMessage;
      } else {
        confirmPasswordValidationText := "";
      }
    }

    method ValidatePhoneNum()
      modifies this
      ensures phoneNumValidationText == PhoneText(phoneNum)
      ensures emailValidationText == old(emailValidationText) && passwordValidationText == old(passwordValidationText)
      ensures confirmPasswordValidationText == old(confirmPasswordValidationText) && nickValidationText == old(nickValidationText)
      ensures email == old(email) && password == old(password) && confirmPassword == old(confirmPassword)
      ensures nick == old(nick) && phoneNum == old(phoneNum) && isLoading == old(isLoading)
    {
      if phoneNum == [] {
        phoneNumValidationText := "";
        return;
      }
      var digitsOnly := Text.RemoveChar(phoneNum, '-');
      if !(forall i :: 0 <= i < |digitsOnly| ==> Text.IsAsciiDigit(digitsOnly[i])) {
        phoneNumValidationText := PhoneDigitsMessage;
      } else if |digitsOnly| < 10 || |digitsOnly| > 11 {
        phoneNumValidationText := PhoneFormatMessage;
      } else {
        phoneNumValidationText := "";
      }
    }

    /** All validators in turn. Afterwards a form the button accepts shows
      * no nick, password or confirmation message. */
    method ValidateAllFields()
      modifies this
      ensures emailValidationText == EmailText(email, isEmailValid(email), old(emailValidationText))
      ensures nickValidationText == NickText(nick)
      ensures passwordValidationText == PasswordText(password)
      ensures confirmPasswordValidationText == ConfirmText(confirmPassword, password)
      ensures phoneNumValidationText == PhoneText(phoneNum)
      ensures email == old(email) && password == old(password) && confirmPassword == old(confirmPassword)
      ensures nick == old(nick) && phoneNum == old(phoneNum) && isLoading == old(isLoading)
      ensures IsFormValid() ==>
        nickValidationText == "" && passwordValidationText == "" && confirmPasswordValidationText == ""
    {
      ValidateEmail();
      ValidateNick();
      ValidatePassword();
      ValidateConfirmPassword();
      ValidatePhoneNum();
    }
  }

  /** Re-validating an address changes nothing more: a kept verdict is kept
    * again, and a cleared message stays clear. */
  lemma EmailTextIsIdempotent(email: string, wellFormed: bool, shown: string)
    ensures EmailText(email, wellFormed, EmailText(email, wellFormed, shown)) == EmailText(email, wellFormed, shown)
  {
    if email != [] && wellFormed && !(Text.Contains(shown, AvailableMarker) || Text.Contains(shown, TakenMarker)) {
      assert !Text.Contains("", AvailableMarker);
      assert !Text.Contains("", TakenMarker);
    }
  }
}
