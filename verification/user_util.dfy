/** The existence check used by signup and login: is there already a user
    with this email or this mobile? */
module UserUtil {
  import opened Common
  import opened Store

  const IDENTIFIER_REQUIRED := "Email or mobile is required."
  const USER_EXISTS := "User already exists."

  /** The answer of a user service: success, an error text, and the user and
      token it carries, if any. */
  datatype ServiceResponse = ServiceResponse(success: bool, error: Option<string>, user: Option<UserRow>, token: Option<Token>)

  /** One condition of the lookup's `or`. */
  datatype Condition = ByEmail(email: string) | ByMobile(mobile: string)

  predicate Satisfies(u: UserRow, c: Condition) {
    match c
    case ByEmail(e) => u.email == Some(e)
    case ByMobile(m) => u.mobile == Some(m)
  }

  /** A user who has this (non-empty) email or this (non-empty) mobile. */
  predicate Identifies(u: UserRow, email: Option<string>, mobile: Option<string>) {
    (Truthy(email) && u.email == email) || (Truthy(mobile) && u.mobile == mobile)
  }

  /** `checkIfUserDoNotExists`. Without a truthy email or mobile it fails with
      "Email or mobile is required." and looks nothing up; it fails with
      "User already exists." carrying a user who has the email or the mobile,
      and succeeds with nothing else exactly when there is no such user. */
  method CheckIfUserDoNotExists(users: seq<UserRow>, email: Option<string>, mobile: Option<string>)
    returns (r: ServiceResponse)
    ensures !Truthy(email) && !Truthy(mobile) ==> r == ServiceResponse(false, Some(IDENTIFIER_REQUIRED), None, None)
    ensures Truthy(email) || Truthy(mobile) ==>
      (r.success <==> forall u :: u in users ==> !Identifies(u, email, mobile))
    ensures r.success ==> r == ServiceResponse(true, None, None, None)
    ensures (Truthy(email) || Truthy(mobile)) && !r.success ==>
      && r.error == Some(USER_EXISTS) && r.token.None?
      && r.user.Some? && r.user.value in users && Identifies(r.user.value, email, mobile)
  {
    var conditions: seq<Condition> := [];
    if Truthy(email) {
      conditions := conditions + [ByEmail(email.value)];
    }
    if Truthy(mobile) {
      conditions := conditions + [ByMobile(mobile.value)];
    }
    assert forall u :: (exists c :: c in conditions && Satisfies(u, c)) <==> Identifies(u, email, mobile) by {
      forall u ensures (exists c :: c in conditions && Satisfies(u, c)) <==> Identifies(u, email, mobile) {
        if Identifies(u, email, mobile) {
          if Truthy(email) && u.email == email {
            assert ByEmail(email.value) in conditions;
          } else {
            assert ByMobile(mobile.value) in conditions;
          }
        }
      }
    }
    if |conditions| == 0 {
      return ServiceResponse(false, Some(IDENTIFIER_REQUIRED), None, None);
    }
    var user := FindFirst(users, (u: UserRow) => exists c :: c in conditions && Satisfies(u, c));
    if user.Some? {
      r := ServiceResponse(false, Some(USER_EXISTS), user, None);
    } else {
      r := ServiceResponse(true, None, None, None);
    }
  }
}
