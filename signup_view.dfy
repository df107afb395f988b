// The first sign-up view, whose button only checks a few coarse rules.
module SignUpViews {
  import Text
  import opened SignUpScreens

  /** The button's condition. The phone number is taken only to show that it
    * plays no part. */
  predicate IsFormValid(email: string, password: string, confirmPassword: string, nick: string,
                        phoneNum: string, agreeToTerms: bool)
  {
    email != "" && Text.Contains(email, "@") && nick != ""
    && password != "" && |password| >= 8 && password == confirmPassword && agreeToTerms
  }

  /** The phone number never decides, and without the terms agreed nothing
    * is accepted. */
  lemma PhoneNeverDecides(email: string, password: string, confirmPassword: string, nick: string,
                          phone1: string, phone2: string, agreeToTerms: bool)
    ensures IsFormValid(email, password, confirmPassword, nick, phone1, agreeToTerms)
        == IsFormValid(email, password, confirmPassword, nick, phone2, agreeToTerms)
    ensures !IsFormValid(email, password, confirmPassword, nick, phone1, false)
  {
  }

  /** A form this view accepts has a confirmation the newer screen accepts
    * too, and an address that is non-empty. */
  lemma FormValidMeansConfirmed(email: string, password: string, confirmPassword: string, nick: string,
                                phoneNum: string, agreeToTerms: bool)
    ensures IsFormValid(email, password, confirmPassword, nick, phoneNum, agreeToTerms) ==>
      SignUpScreens.ConfirmVerdict(confirmPassword, password).Valid? && email != "" && agreeToTerms
  {
    if IsFormValid(email, password, confirmPassword, nick, phoneNum, agreeToTerms) {
      SignUpScreens.ConfirmVerdictValidIff(confirmPassword, password);
    }
  }

  /** Any password the newer screen accepts passes this view's password
    * rule, but not the other way round: eight letters are enough here. */
  lemma WeakerPasswordRule(password: string)
    ensures PasswordRulesHold(password) ==> password != "" && |password| >= 8
    ensures IsFormValid("a@b", "aaaaaaaa", "aaaaaaaa", "n", "", true)
    ensures !PasswordRulesHold("aaaaaaaa")
  {
    assert Text.OccursAt("a@b", "@", 1);
    var p := "aaaaaaaa";
    assert !HasDigit(p) by {
      forall i | 0 <= i < |p| ensures !Text.IsAsciiDigit(p[i]) {
      }
    }
  }
}
