/** The user routes: find-or-create of the single administrator, signup and
    login answers, and the paged user list. */
module UserController {
  import opened Common
  import opened Store
  import opened Http
  import opened UserUtil
  import opened UserService

  const ADMIN_DONE := "Admin created or logged in successfully."
  const REGISTERED := "User registered successfully."
  const LOGGED_IN := "User login successfully."
  const USERS_RETRIEVED := "All users retrieved successfully."
  /** The message of the exception the database raises when an insert breaks a
      `unique` column. */
  const UNIQUE_VIOLATION := "Validation error"

  predicate IsAdmin(u: UserRow) {
    u.role == ROLE_ADMIN
  }

  /** The number of administrators. */
  function AdminCount(users: seq<UserRow>): nat {
    |Filter(users, IsAdmin)|
  }

  datatype AdminSession = AdminSession(user: UserRow, token: Token)

  /** `createOrLoginAdmin`. With no administrator yet, one is created from the
      email and password; the email column is unique, so when a user already
      has that email the insert throws and nothing is stored (the error
      carries no duplicate-key code, so the error handler answers 500). With an
      administrator, nothing is created and the password is not looked at: the
      token carries that administrator's id and role and the email as
      supplied. */
  method CreateOrLoginAdmin(db: Db, email: string, password: string) returns (r: Reply<AdminSession>)
    requires db.Valid()
    modifies db
    ensures db.Valid()
    ensures db.friendRequests == old(db.friendRequests) && db.conversations == old(db.conversations)
    ensures db.members == old(db.members) && db.messages == old(db.messages) && db.clock == old(db.clock)
    ensures match FindFirst(old(db.users), IsAdmin)
      case Some(admin) =>
        && db.users == old(db.users)
        && r == Ok(ADMIN_DONE, AdminSession(admin, Signed(Claims(admin.id, admin.role, Some(email), None))))
      case None =>
        if exists u :: u in old(db.users) && u.email == Some(email) then
          && db.users == old(db.users)
          && r == Crash(UNIQUE_VIOLATION)
        else
          var admin := UserRow(|old(db.users)| + 1, None, None, None, Some(email), None, Hashed(password), ROLE_ADMIN);
          && db.users == old(db.users) + [admin]
          && r == Ok(ADMIN_DONE, AdminSession(admin, Signed(Claims(admin.id, ROLE_ADMIN, Some(email), None))))
    ensures AdminCount(db.users) == if AdminCount(old(db.users)) == 0 && r.Ok? then 1 else AdminCount(old(db.users))
  {
    var existing := FindFirst(db.users, IsAdmin);
    if existing.None? && exists u :: u in db.users && u.email == Some(email) {
      NoAdmins(db.users);
      r := Crash(UNIQUE_VIOLATION);
    } else if existing.None? {
      AdminCountAppend(db.users, password, email);
      var user := db.CreateUser(None, None, None, Some(email), None, password, ROLE_ADMIN);
      r := Ok(ADMIN_DONE, AdminSession(user, Signed(Claims(user.id, user.role, Some(email), None))));
    } else {
      var admin := existing.value;
      assert admin in db.users;
      AdminCountPositive(db.users, admin);
      r := Ok(ADMIN_DONE, AdminSession(admin, Signed(Claims(admin.id, admin.role, Some(email), None))));
    }
  }

  lemma {:induction false} AdminCountPositive(users: seq<UserRow>, admin: UserRow)
    requires admin in users && IsAdmin(admin)
    ensures AdminCount(users) > 0
  {
    var k :| 0 <= k < |users| && users[k] == admin;
    assert admin in Filter(users, IsAdmin);
  }

  /** With no administrator, appending one makes exactly one. */
  lemma AdminCountAppend(users: seq<UserRow>, password: string, email: string)
    requires FindFirst(users, IsAdmin).None?
    ensures AdminCount(users) == 0
    ensures AdminCount(users + [UserRow(|users| + 1, None, None, None, Some(email), None, Hashed(password), ROLE_ADMIN)]) == 1
  {
    var admin := UserRow(|users| + 1, None, None, None, Some(email), None, Hashed(password), ROLE_ADMIN);
    FilterAppend(users, admin, IsAdmin);
    NoAdmins(users);
  }

  lemma {:induction false} NoAdmins(users: seq<UserRow>)
    requires forall k :: 0 <= k < |users| ==> !IsAdmin(users[k])
    ensures Filter(users, IsAdmin) == []
  {
    if users != [] {
      NoAdmins(users[1..]);
    }
  }

  lemma {:induction false} FilterAppend<T>(rows: seq<T>, x: T, p: T -> bool)
    ensures Filter(rows + [x], p) == Filter(rows, p) + (if p(x) then [x] else [])
  {
    if rows == [] {
      assert rows + [x] == [x];
    } else {
      assert (rows + [x])[1..] == rows[1..] + [x];
      FilterAppend(rows[1..], x, p);
    }
  }

  /** `signup`: a refused signup is answered with 403 and the service's error
      and stores nothing; an accepted one stores the user (with the self
      friendship and self conversation) and answers with the user and token. */
  method Signup(db: Db, p: SignupPayload) returns (r: Reply<ServiceResponse>)
    requires db.Valid()
    modifies db
    ensures db.Valid()
    ensures db.messages == old(db.messages) && db.clock == old(db.clock)
    ensures r.Err? ==>
      && db.users == old(db.users) && db.friendRequests == old(db.friendRequests)
      && db.conversations == old(db.conversations) && db.members == old(db.members)
    ensures (!Truthy(p.email) && !Truthy(p.mobile)) ==> r == Err(403, Some(IDENTIFIER_REQUIRED), None)
    ensures (Truthy(p.email) || Truthy(p.mobile)) && (exists u :: u in old(db.users) && Identifies(u, p.email, p.mobile)) ==>
      r == Err(403, Some(USER_EXISTS), None)
    ensures (Truthy(p.email) || Truthy(p.mobile)) && (forall u :: u in old(db.users) ==> !Identifies(u, p.email, p.mobile)) ==>
      if p.password != p.confirmPassword then
        r == Err(403, Some(PASSWORDS_DIFFER), None)
      else
        var id := |old(db.users)| + 1;
        var user := UserRow(id, Some(p.firstName), Some(p.lastName), Some(p.firstName + " " + p.lastName),
                            p.email, p.mobile, Hashed(p.password), ROLE_USER);
        var c := |old(db.conversations)| + 1;
        && db.users == old(db.users) + [user]
        && db.friendRequests == old(db.friendRequests) + [FriendRequestRow(|old(db.friendRequests)| + 1, id, id, REQUEST_APPROVED)]
        && db.conversations == old(db.conversations) + [ConversationRow(c, CONVERSATION_SINGLE, None)]
        && db.members == old(db.members) + [MemberRow(|old(db.members)| + 1, c, id), MemberRow(|old(db.members)| + 2, c, id)]
        && r == Ok(REGISTERED, ServiceResponse(true, None, Some(user), Some(Signed(Claims(id, ROLE_USER, p.email, p.mobile)))))
  {
    var response := SignupService(db, p);
    if !response.success {
      return Err(403, response.error, None);
    }
    r := Ok(REGISTERED, response);
  }

  /** `login`: a refused login is answered with 403 and the service's error; an
      exception in the service escapes the handler. */
  method Login(users: seq<UserRow>, email: Option<string>, mobile: Option<string>, password: string)
    returns (r: Reply<ServiceResponse>)
    ensures !Truthy(email) && !Truthy(mobile) ==> r == Crash(UNDEFINED_VALIDATE)
    ensures Truthy(email) || Truthy(mobile) ==>
      && (r.Err? ==> r.status == 403 && (r.error == Some(NO_SUCH_USER) || r.error == Some(WRONG_PASSWORD)))
      && (r.Ok? ==> r.message == LOGGED_IN && r.data.success && r.data.user.Some? && r.data.user.value in users)
      && (r.Ok? || r.Err?)
      && ((forall u :: u in users ==> !Identifies(u, email, mobile)) ==> r == Err(403, Some(NO_SUCH_USER), None))
      && (r.Ok? ==> LoginAnswer(users, email, mobile, password, r.data))
      && (r.Err? ==> r.code.None? && LoginAnswer(users, email, mobile, password, ServiceResponse(false, r.error, None, None)))
  {
    var response := LoginService(users, email, mobile, password);
    if response.Threw? {
      return Crash(response.message);
    }
    if !response.value.success {
      return Err(403, response.value.error, None);
    }
    r := Ok(LOGGED_IN, response.value);
  }

  datatype UserPage = UserPage(total: nat, page: int, perPage: int, data: seq<UserRow>)

  /** `getAllUsers`: page and perPage default to 1 and 10, the offset is
      (page - 1) * perPage, newest users first. */
  function GetAllUsers(users: seq<UserRow>, pageQuery: Option<int>, perPageQuery: Option<int>): (r: Reply<UserPage>)
    ensures var page := QueryNumber(pageQuery, 1);
      var limit := QueryNumber(perPageQuery, 10);
      var offset := (page - 1) * limit;
      && (r.Ok? <==> offset >= 0 && limit >= 0)
      && (r.Ok? ==> r.data.total == |users| && r.data.page == page && r.data.perPage == limit
                    && |r.data.data| <= limit)
      && (r.Ok? ==> |r.data.data| == PageLength(|users|, offset, limit))
      && (r.Ok? ==> forall i :: 0 <= i < |r.data.data| ==> r.data.data[i] == Reverse(users)[offset + i])
      && (!r.Ok? ==> r == Crash(NEGATIVE_WINDOW))
  {
    var page := QueryNumber(pageQuery, 1);
    var limit := QueryNumber(perPageQuery, 10);
    var offset := (page - 1) * limit;
    if offset < 0 || limit < 0 then Crash(NEGATIVE_WINDOW)
    else Ok(USERS_RETRIEVED, UserPage(|users|, page, limit, Window(Reverse(users), offset, limit)))
  }

  /** A page lists the users from the `offset`-th most recently created on,
      `(page - 1) * perPage`, as many as fit, the most recent first. */
  lemma UserPageNewestFirst(users: seq<UserRow>, pageQuery: Option<int>, perPageQuery: Option<int>)
    requires forall i :: 0 <= i < |users| ==> users[i].id == i + 1
    ensures var r := GetAllUsers(users, pageQuery, perPageQuery);
      var limit := QueryNumber(perPageQuery, 10);
      var offset := (QueryNumber(pageQuery, 1) - 1) * limit;
      r.Ok? ==>
        && offset >= 0 && limit >= 0
        && |r.data.data| == PageLength(|users|, offset, limit)
        && (forall i :: 0 <= i < |r.data.data| ==>
              offset + i < |users| && r.data.data[i] == users[|users| - 1 - (offset + i)])
        && (forall i :: 0 <= i < |r.data.data| ==> r.data.data[i] in users)
        && (forall i, j :: 0 <= i < j < |r.data.data| ==> r.data.data[i].id > r.data.data[j].id)
  {
    var r := GetAllUsers(users, pageQuery, perPageQuery);
    if r.Ok? {
      var key := (u: UserRow) => u.id as int;
      forall i, j | 0 <= i < j < |users| ensures key(users[i]) < key(users[j]) {
      }
      var limit := QueryNumber(perPageQuery, 10);
      var offset := (QueryNumber(pageQuery, 1) - 1) * limit;
      WindowOfReverse(users, offset, limit, key);
      assert r.data.data == Window(Reverse(users), offset, limit);
    }
  }
}
