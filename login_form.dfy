/** The sign-in form (src/pages/LoginPage.tsx): an email with the same pattern as sign-up and
    a password of at least six characters. */
module LoginForm {
  import opened Common
  import opened FormRules
  import RegisterForm

  /** `required` then `minLength: 6`. */
  function PasswordRule(value: string): (err: Option<string>)
    ensures err.None? <==> |value| >= 6
    ensures value == "" ==> err == Some("Password is required")
    ensures 0 < |value| < 6 ==> err == Some("Password must be at least 6 characters")
  {
    RequiredMinLength(value, "Password is required", 6, "Password must be at least 6 characters")
  }

  datatype LoginErrors = LoginErrors(email: Option<string>, password: Option<string>)

  function Errors(email: string, password: string): LoginErrors
  {
    LoginErrors(EmailRule(email), PasswordRule(password))
  }

  /** The form is submitted when the browser accepts the email input and both rules pass. */
  predicate Submits(email: string, password: string) {
    BrowserAcceptsEmail(email) && Errors(email, password) == LoginErrors(None, None)
  }

  /** The rules pass exactly when the email matches the pattern and the password has at
      least six characters; the form is submitted exactly when, in addition, the email is a
      valid address for the browser. */
  lemma SubmitsIff(email: string, password: string)
    ensures Errors(email, password) == LoginErrors(None, None) <==>
            MatchesEmailPattern(email) && |password| >= 6
    ensures Submits(email, password) <==>
            MatchesEmailPattern(email) && HtmlEmail(email) && |password| >= 6
  {
    EmailFieldPassesIff(email);
  }

  /** Every password sign-up accepts, sign-in accepts too; a six-character one only sign-in
      accepts. */
  lemma SignInBoundIsWeaker(password: string)
    ensures RegisterForm.PasswordRule(password).None? ==> PasswordRule(password).None?
    ensures |password| == 6 ==>
              PasswordRule(password).None? && RegisterForm.PasswordRule(password).Some?
  {
  }
}
