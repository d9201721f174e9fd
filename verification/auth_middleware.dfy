/** The two guards in front of the protected routes. Both read the token from
    the Authorization header, verify it and look its user up; the admin guard
    also demands the administrator role. Token verification is a parameter:
    it yields the signed claims, or None for a token that does not verify
    (the verifier returns `null`). */
module AuthMiddleware {
  import opened Common
  import opened Store

  const NO_TOKEN := "Access Denied: No Token Provided"
  const USER_NOT_FOUND := "User not found"
  const INVALID_TOKEN := "Invalid Token"
  const NOT_ADMIN := "Access Denied: You are not an admin"
  const INVALID_OR_EXPIRED := "Invalid or Expired Token"

  /** Either the request proceeds with `req.user` set (and `next` called once),
      or it is answered with a status and a message. */
  datatype Decision = Proceed(user: UserRow) | Reject(status: int, message: string)

  /** `authorization?.split(" ")[1]`: None when there is no header or no
      second part. */
  function TokenOf(header: Option<string>): Option<string> {
    if header.None? then None
    else
      var parts := Split(header.value, ' ');
      if |parts| >= 2 then Some(parts[1]) else None
  }

  /** A "Bearer" header yields exactly the token after the space. */
  lemma BearerToken(token: string)
    requires ' ' !in token
    ensures TokenOf(Some("Bearer " + token)) == Some(token)
  {
    var parts := ["Bearer", token];
    assert Join(parts, [' ']) == "Bearer " + token;
    SplitJoin(parts, ' ');
  }

  /** `authMiddleware`. */
  function AuthDecision(header: Option<string>, verify: string -> Option<Claims>, users: seq<UserRow>)
    : (d: Decision)
    ensures !Truthy(TokenOf(header)) ==> d == Reject(401, NO_TOKEN)
    ensures Truthy(TokenOf(header)) && verify(TokenOf(header).value).None? ==> d == Reject(401, INVALID_TOKEN)
    ensures d.Proceed? <==>
      && Truthy(TokenOf(header))
      && verify(TokenOf(header).value).Some?
      && exists u :: u in users && u.id == verify(TokenOf(header).value).value.id
    ensures d.Proceed? ==> d.user in users && d.user.id == verify(TokenOf(header).value).value.id
    ensures (&& Truthy(TokenOf(header))
             && verify(TokenOf(header).value).Some?
             && (forall u :: u in users ==> u.id != verify(TokenOf(header).value).value.id))
            ==> d == Reject(404, USER_NOT_FOUND)
    ensures d.Reject? ==> d.status in {401, 404}
  {
    var token := TokenOf(header);
    if !Truthy(token) then Reject(401, NO_TOKEN)
    else match verify(token.value)
      case None => Reject(401, INVALID_TOKEN)
      case Some(claims) =>
        match UserById(users, claims.id)
        case None => Reject(404, USER_NOT_FOUND)
        case Some(user) => Proceed(user)
  }

  /** `adminMiddleware`. */
  function AdminDecision(header: Option<string>, verify: string -> Option<Claims>, users: seq<UserRow>)
    : (d: Decision)
    ensures !Truthy(TokenOf(header)) ==> d == Reject(401, NO_TOKEN)
    ensures Truthy(TokenOf(header)) && verify(TokenOf(header).value).None? ==> d == Reject(401, INVALID_OR_EXPIRED)
    ensures d.Proceed? ==>
      d.user in users && d.user.role == ROLE_ADMIN && d.user.id == verify(TokenOf(header).value).value.id
    ensures (&& Truthy(TokenOf(header))
             && verify(TokenOf(header).value).Some?
             && (forall u :: u in users ==> u.id != verify(TokenOf(header).value).value.id))
            ==> d == Reject(404, USER_NOT_FOUND)
    ensures (&& Truthy(TokenOf(header))
             && verify(TokenOf(header).value).Some?
             && UserById(users, verify(TokenOf(header).value).value.id).Some?
             && UserById(users, verify(TokenOf(header).value).value.id).value.role != ROLE_ADMIN)
            ==> d == Reject(403, NOT_ADMIN)
    ensures d.Reject? ==> d.status in {401, 403, 404}
  {
    var token := TokenOf(header);
    if !Truthy(token) then Reject(401, NO_TOKEN)
    else match verify(token.value)
      case None => Reject(401, INVALID_OR_EXPIRED)
      case Some(claims) =>
        match UserById(users, claims.id)
        case None => Reject(404, USER_NOT_FOUND)
        case Some(user) =>
          if user.role != ROLE_ADMIN then Reject(403, NOT_ADMIN) else Proceed(user)
  }

  /** The admin guard lets through exactly the requests the plain guard lets
      through whose user is an administrator, with the same user; a request
      the plain guard answers with 404 gets 404 from both. */
  lemma AdminRefinesAuth(header: Option<string>, verify: string -> Option<Claims>, users: seq<UserRow>)
    ensures var a := AuthDecision(header, verify, users);
      var b := AdminDecision(header, verify, users);
      && (b.Proceed? <==> a.Proceed? && a.user.role == ROLE_ADMIN)
      && (b.Proceed? ==> b.user == a.user)
      && (a.Proceed? && a.user.role != ROLE_ADMIN ==> b == Reject(403, NOT_ADMIN))
      && (a == Reject(404, USER_NOT_FOUND) <==> b == Reject(404, USER_NOT_FOUND))
  {
  }
}
