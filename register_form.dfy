/** The sign-up form (src/pages/RegisterPage.tsx): the role chosen from the `role` query
    parameter, the provider-only fields, and the rule each field is registered with. */
module RegisterForm {
  import opened Common
  import opened FormRules

  /** The values the form submits; the role is whatever string the query or the toggle gave. */
  datatype RegisterFormData = RegisterFormData(
    name: string,
    email: string,
    phone: string,
    password: string,
    confirmPassword: string,
    role: string,
    serviceCategories: seq<string>,
    bio: string,
    agreeTerms: bool)

  /** `searchParams.get('role') || 'client'`: the query value when it is non-empty. It is only
      cast, so a value such as "guest" is kept as it is. */
  function InitialRole(param: Option<string>): (role: string)
    ensures Truthy(param) ==> role == param.value
    ensures !Truthy(param) ==> role == "client"
    ensures role != ""
  {
    if Truthy(param) then param.value else "client"
  }

  /** The form's `defaultValues`: the initial role and no service categories. */
  datatype Defaults = Defaults(role: string, serviceCategories: seq<string>)

  function DefaultValues(param: Option<string>): (d: Defaults)
    ensures d.role == InitialRole(param) && d.serviceCategories == []
  {
    Defaults(InitialRole(param), [])
  }

  /** The service-category and bio fields are rendered only for the role 'provider'. */
  predicate ProviderFieldsShown(role: string) {
    role == "provider"
  }

  /** The role the page shows, which `toggleRole` overwrites. */
  class RoleChoice {
    var role: string

    constructor(param: Option<string>)
      ensures role == InitialRole(param)
      ensures ProviderFieldsShown(role) <==> Truthy(param) && param.value == "provider"
    {
      role := InitialRole(param);
    }

    method ToggleRole(newRole: string)
      modifies this
      ensures role == newRole
      ensures ProviderFieldsShown(role) <==> newRole == "provider"
    {
      role := newRole;
    }
  }

  /** `required` then `minLength: 8`. */
  function PasswordRule(value: string): (err: Option<string>)
    ensures err.None? <==> |value| >= 8
    ensures value == "" ==> err == Some("Password is required")
    ensures 0 < |value| < 8 ==> err == Some("Password must be at least 8 characters")
  {
    RequiredMinLength(value, "Password is required", 8, "Password must be at least 8 characters")
  }

  /** `required` then `validate: value === password || 'Passwords do not match'`. */
  function ConfirmRule(value: string, password: string): (err: Option<string>)
    ensures err.None? <==> value != "" && value == password
    ensures value == "" ==> err == Some("Please confirm your password")
    ensures value != "" && value != password ==> err == Some("Passwords do not match")
  {
    if value == "" then Some("Please confirm your password")
    else if value != password then Some("Passwords do not match")
    else None
  }

  /** `required` on the checkbox: it must be ticked. */
  function TermsRule(agreed: bool): (err: Option<string>)
    ensures err.None? <==> agreed
    ensures !agreed ==> err == Some("You must agree to the terms and conditions")
  {
    if agreed then None else Some("You must agree to the terms and conditions")
  }

  /** The message shown under each validated field, if any; phone, categories and bio have
      no rule. */
  datatype RegisterErrors = RegisterErrors(
    name: Option<string>,
    email: Option<string>,
    password: Option<string>,
    confirmPassword: Option<string>,
    agreeTerms: Option<string>)

  function Errors(f: RegisterFormData): RegisterErrors
  {
    RegisterErrors(
      Required(f.name, "Full name is required"),
      EmailRule(f.email),
      PasswordRule(f.password),
      ConfirmRule(f.confirmPassword, f.password),
      TermsRule(f.agreeTerms))
  }

  /** `handleSubmit` calls the submit handler only when no field has an error. */
  predicate RulesPass(f: RegisterFormData) {
    var e := Errors(f);
    e.name.None? && e.email.None? && e.password.None? && e.confirmPassword.None? &&
    e.agreeTerms.None?
  }

  /** The form is submitted when the browser accepts the email input and the rules pass. */
  predicate Submits(f: RegisterFormData) {
    BrowserAcceptsEmail(f.email) && RulesPass(f)
  }

  /** The rules pass exactly when the name is given, the email matches the pattern, the
      password has at least eight characters, the confirmation repeats it and the terms are
      accepted; the form is submitted exactly when, in addition, the email is a valid address
      for the browser. The role and the provider fields play no part. */
  lemma SubmitsIff(f: RegisterFormData)
    ensures RulesPass(f) <==>
      f.name != "" && MatchesEmailPattern(f.email) && |f.password| >= 8 &&
      f.confirmPassword == f.password && f.agreeTerms
    ensures Submits(f) <==>
      f.name != "" && MatchesEmailPattern(f.email) && HtmlEmail(f.email) &&
      |f.password| >= 8 && f.confirmPassword == f.password && f.agreeTerms
  {
    EmailFieldPassesIff(f.email);
  }
}
