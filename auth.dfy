/** The decisions of the authentication helpers (src/lib/supabase.ts): the dashboard path of
    a role, the defaults of a new profile row, the role `verifyOTP` reports, what `signUp`
    returns when creating the profile fails, and `signOut`'s rethrow. Each backend answer is
    a parameter; the calls themselves are not modelled. */
module Auth {
  import opened Common

  /** `getDashboardPath`: the admin and provider dashboards, and the home page for a client,
      no role, or any other string. */
  function DashboardPath(role: Option<string>): (path: string)
    ensures path == "/admin" <==> role == Some("admin")
    ensures path == "/provider" <==> role == Some("provider")
    ensures path == "/" <==> role != Some("admin") && role != Some("provider")
  {
    if role == Some("admin") then "/admin"
    else if role == Some("provider") then "/provider"
    else "/"
  }

  /** Every known role goes to the path of its own name, the client to the home page. */
  lemma DashboardPathOfRoles(r: UserRole)
    ensures DashboardPath(Some(RoleName(r))) == (if r == Client then "/" else "/" + RoleName(r))
  {
  }

  /** `email.split('@')[0]`: the text before the first '@', or the whole string. */
  function BeforeAt(email: string): (r: string)
    ensures '@' !in r
    ensures r <= email
    ensures r == email || email[|r|] == '@'
    decreases |email|
  {
    if email == [] then []
    else if email[0] == '@' then []
    else [email[0]] + BeforeAt(email[1..])
  }

  /** An address with an '@' gives its part before the first '@'; one without gives itself. */
  lemma BeforeAtSplit(local: string, rest: string)
    requires '@' !in local
    ensures BeforeAt(local + "@" + rest) == local
    ensures BeforeAt(local) == local
  {
    BeforeAtPrefix(local, rest);
    BeforeAtWhole(local);
  }

  lemma {:induction false} BeforeAtPrefix(local: string, rest: string)
    requires '@' !in local
    ensures BeforeAt(local + "@" + rest) == local
    decreases |local|
  {
    if local != [] {
      assert (local + "@" + rest)[1..] == local[1..] + "@" + rest;
      BeforeAtPrefix(local[1..], rest);
    } else {
      assert (local + "@" + rest)[0] == '@';
    }
  }

  lemma {:induction false} BeforeAtWhole(s: string)
    requires '@' !in s
    ensures BeforeAt(s) == s
    decreases |s|
  {
    if s != [] {
      BeforeAtWhole(s[1..]);
    }
  }

  /** The `users` row `createUserProfile` inserts (timestamps left out). */
  datatype ProfileRow = ProfileRow(
    id: string,
    email: string,
    role: string,
    name: string,
    phone: Option<string>,
    address: Option<string>,
    serviceCategories: Option<seq<string>>,
    bio: Option<string>)

  /** The optional fields a caller may pass. */
  datatype ExtraData = ExtraData(
    name: Option<string>,
    phone: Option<string>,
    address: Option<string>,
    serviceCategories: Option<seq<string>>,
    bio: Option<string>)

  const NoExtraData: ExtraData := ExtraData(None, None, None, None, None)

  /** `createUserProfile`'s row: an omitted role is 'client', a missing or empty name is the
      email's part before the '@', and the other fields are passed through. */
  function NewProfile(userId: string, email: string, role: Option<string>, extra: ExtraData)
    : (row: ProfileRow)
    ensures row.id == userId && row.email == email
    ensures role.None? ==> row.role == "client"
    ensures role.Some? ==> row.role == role.value
    ensures Truthy(extra.name) ==> row.name == extra.name.value
    ensures !Truthy(extra.name) ==> row.name == BeforeAt(email)
    ensures row.phone == extra.phone && row.address == extra.address && row.bio == extra.bio
    ensures row.serviceCategories == extra.serviceCategories
  {
    ProfileRow(userId, email, if role.Some? then role.value else "client",
               if Truthy(extra.name) then extra.name.value else BeforeAt(email),
               extra.phone, extra.address, extra.serviceCategories, extra.bio)
  }

  /** A profile made without a name for "jo@example.com" is client "jo". */
  lemma NewProfileDefaults(userId: string)
    ensures NewProfile(userId, "jo@example.com", None, NoExtraData).role == "client"
    ensures NewProfile(userId, "jo@example.com", None, NoExtraData).name == "jo"
  {
    BeforeAtSplit("jo", "example.com");
  }

  /** The signed-in user `verifyOtp` returns. */
  datatype AuthUser = AuthUser(id: string, email: Option<string>)

  /** What `verifyOTP` does: it throws, or it reports a role, having perhaps inserted a row. */
  datatype OtpResult =
    | OtpThrew(message: string)
    | OtpVerified(role: string, inserted: Option<ProfileRow>)

  /** `verifyOTP` with the backend's answers: the verification error, the user, the role
      column of the `users` row (None when there is no row) and the insert's error. */
  function VerifyOtp(verifyError: Option<string>, user: Option<AuthUser>,
                     profile: Option<Option<string>>, insertError: Option<string>)
    : (r: OtpResult)
    ensures verifyError.Some? ==> r == OtpThrew(verifyError.value)
    ensures verifyError.None? && user.None? ==> r == OtpVerified("client", None)
    ensures verifyError.None? && user.Some? && profile.None? && insertError.Some? ==>
              r == OtpThrew(insertError.value)
    ensures verifyError.None? && user.Some? && profile.None? && insertError.None? ==>
              r == OtpVerified("client", Some(NewProfile(user.value.id,
                                 if Truthy(user.value.email) then user.value.email.value else "",
                                 None, NoExtraData)))
    ensures verifyError.None? && user.Some? && profile.Some? ==>
              r == OtpVerified(if Truthy(profile.value) then profile.value.value else "client", None)
  {
    if verifyError.Some? then OtpThrew(verifyError.value)
    else if user.None? then OtpVerified("client", None)
    else if profile.None? then
      var email := if Truthy(user.value.email) then user.value.email.value else "";
      if insertError.Some? then OtpThrew(insertError.value)
      else OtpVerified("client", Some(NewProfile(user.value.id, email, None, NoExtraData)))
    else OtpVerified(if Truthy(profile.value) then profile.value.value else "client", None)
  }

  /** Whenever `verifyOTP` reports a role, it is the row's non-empty role or 'client'; a row
      it inserts is a client row. */
  lemma VerifyOtpRole(verifyError: Option<string>, user: Option<AuthUser>,
                      profile: Option<Option<string>>, insertError: Option<string>)
    ensures var r := VerifyOtp(verifyError, user, profile, insertError);
            r.OtpVerified? ==>
              (r.role == "client" || (profile.Some? && Truthy(profile.value) && r.role == profile.value.value)) &&
              (r.inserted.Some? ==> r.inserted.value.role == "client")
  {
  }

  /** What `supabase.auth.signUp` does: it throws, or it returns an error or a user. */
  datatype SignUpAnswer =
    | SignUpThrew(message: string)
    | SignUpReturned(error: Option<string>, user: Option<string>)

  /** What `signUp` returns, an error message or the data, with the profile row it tried to
      insert and the insert's error, which it only writes to the console. */
  datatype SignUpResult = SignUpResult(
    error: Option<string>,
    hasData: bool,
    attempted: Option<ProfileRow>,
    loggedProfileError: Option<string>)

  /** `signUp`: a thrown error gives its message, or 'An error occurred during signup'; a
      returned error is passed on; otherwise, when there is a user, the profile row is
      attempted, a failure of that insert is logged, and the result carries no error
      whatever the insert did. */
  function SignUp(answer: SignUpAnswer, email: string, role: UserRole, fullName: string,
                  extra: ExtraData, insertError: Option<string>)
    : (r: SignUpResult)
    ensures answer.SignUpThrew? ==>
              r == SignUpResult(Some(if answer.message != "" then answer.message
                                     else "An error occurred during signup"), false, None, None)
    ensures answer.SignUpReturned? && answer.error.Some? ==>
              r == SignUpResult(answer.error, false, None, None)
    ensures answer.SignUpReturned? && answer.error.None? ==> r.error == None && r.hasData
    ensures r.attempted.Some? <==> answer.SignUpReturned? && answer.error.None? && answer.user.Some?
    ensures r.attempted.Some? ==>
              r.attempted.value == NewProfile(answer.user.value, email, Some(RoleName(role)),
                                              extra.(name := Some(fullName)))
    ensures r.loggedProfileError == if r.attempted.Some? then insertError else None
  {
    match answer
    case SignUpThrew(message) =>
      SignUpResult(Some(if message != "" then message else "An error occurred during signup"),
                   false, None, None)
    case SignUpReturned(error, user) =>
      if error.Some? then SignUpResult(error, false, None, None)
      else if user.None? then SignUpResult(None, true, None, None)
      else SignUpResult(None, true,
                        Some(NewProfile(user.value, email, Some(RoleName(role)), extra.(name := Some(fullName)))),
                        insertError)
  }

  /** The profile insert's outcome never reaches `signUp`'s caller: two runs that differ only
      in that outcome return the same error and data, and differ only in what they log, which
      is each run's own insert error whenever the insert was attempted. */
  lemma SignUpIgnoresProfileError(answer: SignUpAnswer, email: string, role: UserRole,
                                  fullName: string, extra: ExtraData, e1: Option<string>, e2: Option<string>)
    ensures var r1, r2 := SignUp(answer, email, role, fullName, extra, e1),
                          SignUp(answer, email, role, fullName, extra, e2);
            r1.error == r2.error && r1.hasData == r2.hasData && r1.attempted == r2.attempted &&
            (r1.attempted.Some? ==> r1.loggedProfileError == e1 && r2.loggedProfileError == e2) &&
            (r1.loggedProfileError != r2.loggedProfileError ==> r1.attempted.Some? && e1 != e2)
  {
  }

  datatype SignOutResult = SignedOut | SignOutThrew(message: string)

  /** `signOut` rethrows the backend's error. */
  function SignOut(error: Option<string>): (r: SignOutResult)
    ensures r.SignedOut? <==> error.None?
    ensures r.SignOutThrew? ==> r.message == error.value
  {
    if error.Some? then SignOutThrew(error.value) else SignedOut
  }
}
