/** What the client pages see of the HTTP client: the requests they send and
    the answers of the two authentication routes. Transport, interceptors and
    retries are not modelled. */
module ApiClient {
  import opened Common
  import opened Joi

  /** One request: the endpoint, the HTTP verb and the JSON body, if any. */
  datatype ApiRequest = ApiRequest(endPoint: string, verb: string, data: Option<Body>)

  /** The `data` of a successful signup or login: the token and the user's id
      and role. */
  datatype AuthData = AuthData(token: string, userId: int, role: string)

  /** How a POST ends for the page: the client's answer (its own failure
      answer when the server refused, with the server's message when there
      is one), or an exception with the message it carries. */
  datatype AuthAnswer =
    | Answered(success: bool, message: Option<string>, data: Option<AuthData>)
    | Threw(message: Option<string>)

  /** The storage keys the pages write after signing in. */
  const AUTH_TOKEN_KEY := "authToken"
  const ID_KEY := "id"
  const ROLE_KEY := "role"

  const DASHBOARD_ROUTE := "/dashboard"

  /** The storage after a sign-in: token, id (as decimal text) and role;
      every other key is kept. */
  function SignedIn(storage: map<string, string>, d: AuthData): (s: map<string, string>)
    ensures s.Keys == storage.Keys + {AUTH_TOKEN_KEY, ID_KEY, ROLE_KEY}
    ensures s[AUTH_TOKEN_KEY] == d.token && s[ROLE_KEY] == d.role
    ensures s[ID_KEY] == IntToString(d.userId)
    ensures forall k :: k in storage && k !in {AUTH_TOKEN_KEY, ID_KEY, ROLE_KEY} ==> s[k] == storage[k]
  {
    storage[AUTH_TOKEN_KEY := d.token][ID_KEY := IntToString(d.userId)][ROLE_KEY := d.role]
  }

  /** The stored id reads back (`Number(getItem("id"))`) as the signed-in
      user's id, which the other pages take as the current user. */
  lemma StoredIdReadsBack(storage: map<string, string>, d: AuthData)
    requires d.userId >= 0
    ensures forall i :: 0 <= i < |SignedIn(storage, d)[ID_KEY]| ==> IsDigit(SignedIn(storage, d)[ID_KEY][i])
    ensures DigitsValue(SignedIn(storage, d)[ID_KEY]) == d.userId
  {
    NatToStringValue(d.userId);
  }
}
