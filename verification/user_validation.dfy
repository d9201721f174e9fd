/** The three user schemas: admin login, signup and login. */
module UserValidation {
  import opened Common
  import opened Joi

  /** A present, non-empty string. */
  predicate HasText(body: Body, key: string) {
    key in body && body[key].JStr? && body[key].s != ""
  }

  /** A present string of 6 to 20 characters. */
  predicate PasswordShaped(body: Body, key: string) {
    key in body && body[key].JStr? && 6 <= |body[key].s| <= 20
  }

  /** Absent, `null`, or a non-empty string in the given format. */
  predicate OptionalIn(body: Body, key: string, f: Format) {
    key !in body || body[key] == JNull || (body[key].JStr? && body[key].s != "" && Conforms(f, body[key].s))
  }

  /** The password rule shared by all three schemas. */
  function CheckPassword(body: Body, key: string): (r: Option<Issue>)
    ensures r.None? <==> PasswordShaped(body, key)
  {
    CheckString(body, key, true, false, 6, Some(20), AnyText)
  }

  /** `createOrLoginAdminSchema`: both an email and a password are required. */
  function AdminIssue(body: Body): (r: Option<Issue>)
    ensures r.None? <==> HasText(body, "email") && IsEmail(body["email"].s) && PasswordShaped(body, "password")
  {
    Then(CheckString(body, "email", true, false, 0, None, EmailFormat), CheckPassword(body, "password"))
  }

  /** `userSignupSchema`. */
  function SignupIssue(body: Body): (r: Option<Issue>)
    ensures r.None? <==>
      && HasText(body, "firstName") && HasText(body, "lastName")
      && OptionalIn(body, "email", EmailFormat) && OptionalIn(body, "mobile", MobileFormat)
      && PasswordShaped(body, "password") && PasswordShaped(body, "confirmPassword")
      && (Present(body, "email") || Present(body, "mobile"))
  {
    var keys :=
      Then(CheckString(body, "firstName", true, false, 0, None, AnyText),
      Then(CheckString(body, "lastName", true, false, 0, None, AnyText),
      Then(CheckString(body, "email", false, true, 0, None, EmailFormat),
      Then(CheckString(body, "mobile", false, true, 0, None, MobileFormat),
      Then(CheckPassword(body, "password"),
           CheckPassword(body, "confirmPassword"))))));
    if keys.Some? then keys
    else if !Present(body, "email") && !Present(body, "mobile") then Some(Issue("", Missing))
    else None
  }

  /** `userLoginSchema`. */
  function LoginIssue(body: Body): (r: Option<Issue>)
    ensures r.None? <==>
      && OptionalIn(body, "email", EmailFormat) && OptionalIn(body, "mobile", MobileFormat)
      && PasswordShaped(body, "password")
      && (Present(body, "email") || Present(body, "mobile"))
  {
    var keys :=
      Then(CheckString(body, "email", false, true, 0, None, EmailFormat),
      Then(CheckString(body, "mobile", false, true, 0, None, MobileFormat),
           CheckPassword(body, "password")));
    if keys.Some? then keys
    else if !Present(body, "email") && !Present(body, "mobile") then Some(Issue("", Missing))
    else None
  }

  /** The custom texts of the password rules; other issues keep the library's
      default wording (None). */
  function IssueMessage(issue: Issue): (m: Option<string>)
    ensures m.Some? <==>
      (issue.key == "password" || issue.key == "confirmPassword")
      && issue.rule in {StringBase, Empty, Min, Max, Required}
    ensures issue.key == "confirmPassword" && m.Some? ==> "Confirm Password " <= m.value
    ensures issue.key == "password" && m.Some? ==> "Password " <= m.value
  {
    if issue.key != "password" && issue.key != "confirmPassword" then None
    else
      var subject := if issue.key == "password" then "Password" else "Confirm Password";
      match issue.rule
      case StringBase => Some(subject + " should be a type of string")
      case Empty => Some(subject + " cannot be empty")
      case Min => Some(subject + " should be of atleast 6 characters")
      case Max => Some(subject + " should have a maximum of 20 characters")
      case Required => Some(subject + " is required")
      case _ => None
  }

  /** No schema compares the two passwords: a signup whose confirmation
      differs passes validation (the service refuses it later). */
  lemma SignupAcceptsMismatchedPasswords()
    ensures SignupIssue(map["firstName" := JStr("Ann"), "lastName" := JStr("Lee"), "mobile" := JStr("9876543210"),
                            "password" := JStr("secret1"), "confirmPassword" := JStr("secret2")]).None?
  {
    var body := map["firstName" := JStr("Ann"), "lastName" := JStr("Lee"), "mobile" := JStr("9876543210"),
                    "password" := JStr("secret1"), "confirmPassword" := JStr("secret2")];
    assert IsMobile(body["mobile"].s);
  }

  /** `or` counts a `null` email as present, so a login body whose only
      identifier is `null` passes validation. */
  lemma LoginAcceptsNullEmail()
    ensures LoginIssue(map["email" := JNull, "password" := JStr("secret1")]).None?
  {
  }

  /** A login body with neither an email nor a mobile key is refused. */
  lemma LoginNeedsIdentifier(password: string)
    ensures LoginIssue(map["password" := JStr(password)]).Some?
  {
  }
}
