/** Signup and login. Signup creates the user together with an approved
    friend request to themself and a single conversation holding only them;
    login finds the user by email or mobile and checks the password. */
module UserService {
  import opened Common
  import opened Store
  import opened Http
  import opened UserUtil

  const PASSWORDS_DIFFER := "Password do not matched."
  const NO_SUCH_USER := "User do not exists"
  const WRONG_PASSWORD := "Password do not matches."
  /** What reading `validatePassword` of the missing `data` raises. */
  const UNDEFINED_VALIDATE := "Cannot read properties of undefined (reading 'validatePassword')"

  /** The validated signup body; a `null` or absent email or mobile is None. */
  datatype SignupPayload = SignupPayload(
    firstName: string,
    lastName: string,
    email: Option<string>,
    mobile: Option<string>,
    password: string,
    confirmPassword: string)

  /** `signupService`. */
  method SignupService(db: Db, p: SignupPayload) returns (r: ServiceResponse)
    requires db.Valid()
    modifies db
    ensures db.Valid()
    ensures db.messages == old(db.messages) && db.clock == old(db.clock)
    ensures !r.success ==>
      && db.users == old(db.users) && db.friendRequests == old(db.friendRequests)
      && db.conversations == old(db.conversations) && db.members == old(db.members)
    ensures (!Truthy(p.email) && !Truthy(p.mobile)) ==>
      r == ServiceResponse(false, Some(IDENTIFIER_REQUIRED), None, None)
    ensures (Truthy(p.email) || Truthy(p.mobile)) && (exists u :: u in old(db.users) && Identifies(u, p.email, p.mobile)) ==>
      !r.success && r.error == Some(USER_EXISTS)
    ensures (Truthy(p.email) || Truthy(p.mobile)) && (forall u :: u in old(db.users) ==> !Identifies(u, p.email, p.mobile)) ==>
      if p.password != p.confirmPassword then
        r == ServiceResponse(false, Some(PASSWORDS_DIFFER), None, None)
      else
        var id := |old(db.users)| + 1;
        var user := UserRow(id, Some(p.firstName), Some(p.lastName), Some(p.firstName + " " + p.lastName),
                            p.email, p.mobile, Hashed(p.password), ROLE_USER);
        var c := |old(db.conversations)| + 1;
        && db.users == old(db.users) + [user]
        && db.friendRequests == old(db.friendRequests) + [FriendRequestRow(|old(db.friendRequests)| + 1, id, id, REQUEST_APPROVED)]
        && db.conversations == old(db.conversations) + [ConversationRow(c, CONVERSATION_SINGLE, None)]
        && db.members == old(db.members) + [MemberRow(|old(db.members)| + 1, c, id), MemberRow(|old(db.members)| + 2, c, id)]
        && r == ServiceResponse(true, None, Some(user), Some(Signed(Claims(id, ROLE_USER, p.email, p.mobile))))
  {
    var check := CheckIfUserDoNotExists(db.users, p.email, p.mobile);
    if !check.success {
      return check;
    }
    if p.password != p.confirmPassword {
      return ServiceResponse(false, Some(PASSWORDS_DIFFER), None, None);
    }
    var user := db.CreateUser(Some(p.firstName), Some(p.lastName), Some(p.firstName + " " + p.lastName),
                              p.email, p.mobile, p.password, ROLE_USER);
    var token := Signed(Claims(user.id, user.role, p.email, p.mobile));
    OpenSelfConversation(db, user.id);
    r := ServiceResponse(true, None, Some(user), Some(token));
  }

  /** What signup adds for the user it has just created: an approved friend
      request to themself and a single conversation whose two member rows
      both name them. Every id refers to an existing row, so none of the
      inserts is refused. */
  method OpenSelfConversation(db: Db, id: int)
    requires db.Valid() && 1 <= id <= |db.users|
    modifies db
    ensures db.Valid()
    ensures db.users == old(db.users) && db.messages == old(db.messages) && db.clock == old(db.clock)
    ensures var c := |old(db.conversations)| + 1;
      && db.friendRequests == old(db.friendRequests) + [FriendRequestRow(|old(db.friendRequests)| + 1, id, id, REQUEST_APPROVED)]
      && db.conversations == old(db.conversations) + [ConversationRow(c, CONVERSATION_SINGLE, None)]
      && db.members == old(db.members) + [MemberRow(|old(db.members)| + 1, c, id), MemberRow(|old(db.members)| + 2, c, id)]
  {
    UserByIdPositional(db.users, id);
    var request := db.CreateFriendRequest(id, id, REQUEST_APPROVED);
    var conversation := db.CreateConversation(CONVERSATION_SINGLE, None);
    ConversationByIdPositional(db.conversations, conversation.id);
    var rows := db.BulkCreateMembers(conversation.id, [id, id]);
  }

  /** `loginService`, as written. When the existence check succeeds there is
      no such user. When it fails because neither identifier is truthy it
      carries no user, and reading its password check throws. Otherwise the
      found user's password decides. */
  method LoginService(users: seq<UserRow>, email: Option<string>, mobile: Option<string>, password: string)
    returns (r: Outcome<ServiceResponse>)
    ensures !Truthy(email) && !Truthy(mobile) ==> r == Threw(UNDEFINED_VALIDATE)
    ensures Truthy(email) || Truthy(mobile) ==> r.Returned? && LoginAnswer(users, email, mobile, password, r.value)
  {
    var check := CheckIfUserDoNotExists(users, email, mobile);
    if check.success {
      return Returned(ServiceResponse(false, Some(NO_SUCH_USER), None, None));
    }
    if check.user.None? {
      return Threw(UNDEFINED_VALIDATE);
    }
    var found := check.user.value;
    if !PasswordMatches(password, found.password) {
      return Returned(ServiceResponse(false, Some(WRONG_PASSWORD), None, None));
    }
    r := Returned(ServiceResponse(true, None, Some(found), Some(Signed(Claims(found.id, found.role, email, mobile)))));
  }

  /** What a login with at least one identifier answers: "User do not exists"
      when nobody has the email or mobile; otherwise, for some user who has
      one of them, "Password do not matches." when the password is not that
      user's, else success with that user and a token for their id and role. */
  ghost predicate LoginAnswer(users: seq<UserRow>, email: Option<string>, mobile: Option<string>, password: string,
                              r: ServiceResponse)
  {
    if forall u :: u in users ==> !Identifies(u, email, mobile) then
      r == ServiceResponse(false, Some(NO_SUCH_USER), None, None)
    else
      exists u :: u in users && Identifies(u, email, mobile) &&
        if PasswordMatches(password, u.password) then
          r == ServiceResponse(true, None, Some(u), Some(Signed(Claims(u.id, u.role, email, mobile))))
        else
          r == ServiceResponse(false, Some(WRONG_PASSWORD), None, None)
  }

  /** `loginService` as evidently intended: a failed existence check that
      carries no user is passed on as it is, so a login never throws. */
  method LoginServiceChecked(users: seq<UserRow>, email: Option<string>, mobile: Option<string>, password: string)
    returns (r: ServiceResponse)
    ensures !Truthy(email) && !Truthy(mobile) ==> r == ServiceResponse(false, Some(IDENTIFIER_REQUIRED), None, None)
    ensures Truthy(email) || Truthy(mobile) ==> LoginAnswer(users, email, mobile, password, r)
  {
    var check := CheckIfUserDoNotExists(users, email, mobile);
    if check.success {
      return ServiceResponse(false, Some(NO_SUCH_USER), None, None);
    }
    if check.user.None? {
      return check;
    }
    var found := check.user.value;
    if !PasswordMatches(password, found.password) {
      return ServiceResponse(false, Some(WRONG_PASSWORD), None, None);
    }
    r := ServiceResponse(true, None, Some(found), Some(Signed(Claims(found.id, found.role, email, mobile))));
  }

  /** A user who signed up can log in with the same email and password. */
  method ScenarioSignupThenLogin() returns (login: Outcome<ServiceResponse>)
    ensures login.Returned? && login.value.success
    ensures login.value.user.Some? && login.value.user.value.name == Some("Ann Lee")
    ensures login.value.user.value.role == ROLE_USER
  {
    var db := new Db();
    var p := SignupPayload("Ann", "Lee", Some("ann@example.com"), None, "secret1", "secret1");
    var ann := UserRow(1, Some("Ann"), Some("Lee"), Some("Ann Lee"), p.email, None, Hashed("secret1"), ROLE_USER);
    assert "Ann" + " " + "Lee" == "Ann Lee";
    var first := SignupService(db, p);
    assert db.users == [ann];
    login := LoginService(db.users, p.email, None, "secret1");
    assert Identifies(ann, p.email, None);
  }

  /** A second signup with an email already taken is refused and creates no user. */
  method ScenarioDuplicateSignup() returns (again: ServiceResponse, users: nat)
    ensures !again.success && again.error == Some(USER_EXISTS)
    ensures users == 1
  {
    var db := new Db();
    var p := SignupPayload("Ann", "Lee", Some("ann@example.com"), None, "secret1", "secret1");
    var first := SignupService(db, p);
    assert |db.users| == 1 && db.users[0].email == p.email;
    assert Identifies(db.users[0], p.email, None);
    again := SignupService(db, SignupPayload("Ann", "Other", p.email, None, "secret2", "secret2"));
    users := |db.users|;
  }
}
