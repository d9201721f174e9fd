/** The login form: its local guard, the payload it posts and what it does
    with the answer. */
module LoginPage {
  import opened Common
  import opened Joi
  import opened UserValidation
  import opened ApiClient

  const CREDENTIALS_REQUIRED := "Email and password are required"
  const LOGIN_ENDPOINT := "users/login"

  /** The body posted to the login route: exactly the email and the password. */
  function LoginPayload(email: string, password: string): (b: Body)
    ensures b.Keys == {"email", "password"}
    ensures b["email"] == JStr(email) && b["password"] == JStr(password)
  {
    map["email" := JStr(email), "password" := JStr(password)]
  }

  /** A payload that passed the form's guard meets the server's login schema
      exactly when the email is well formed and the password has 6 to 20
      characters. */
  lemma PayloadMeetsSchema(email: string, password: string)
    requires email != "" && password != ""
    ensures LoginIssue(LoginPayload(email, password)).None? <==> IsEmail(email) && 6 <= |password| <= 20
  {
    assert Present(LoginPayload(email, password), "email");
  }

  class LoginForm {
    var email: string
    var password: string
    var loading: bool
    /** The answer's `data` kept by the page once signed in. */
    var data: Option<AuthData>
    /** The error line; None is `undefined`. */
    var error: Option<string>
    var storage: map<string, string>
    var route: Option<string>
    var requests: seq<ApiRequest>

    constructor (storage: map<string, string>)
      ensures email == "" && password == "" && !loading && data == None && error == Some("")
      ensures this.storage == storage && route == None && requests == []
    {
      email, password, loading, data, error := "", "", false, None, Some("");
      this.storage, route, requests := storage, None, [];
    }

    /** Typing into the two inputs. */
    method Fill(email: string, password: string)
      modifies this
      ensures this.email == email && this.password == password
      ensures loading == old(loading) && data == old(data) && error == old(error)
      ensures storage == old(storage) && route == old(route) && requests == old(requests)
    {
      this.email, this.password := email, password;
    }

    /** `handleLogin`. The error is cleared first; an empty email or password
        stops the attempt before any request. Otherwise the payload is
        posted: a success with data stores the session and goes to the
        dashboard, a failure shows the answer's message, a success without
        data changes nothing more, and an exception shows its message;
        loading is off afterwards. */
    method HandleLogin(answer: AuthAnswer)
      modifies this
      ensures email == old(email) && password == old(password)
      ensures old(email) == "" || old(password) == "" ==>
        && error == Some(CREDENTIALS_REQUIRED)
        && requests == old(requests) && storage == old(storage) && route == old(route)
        && loading == old(loading) && data == old(data)
      ensures old(email) != "" && old(password) != "" ==>
        && requests == old(requests) + [ApiRequest(LOGIN_ENDPOINT, "POST", Some(LoginPayload(old(email), old(password))))]
        && !loading
        && (match answer
            case Answered(true, _, Some(d)) =>
              data == Some(d) && storage == SignedIn(old(storage), d) && route == Some(DASHBOARD_ROUTE) && error == Some("")
            case Answered(true, _, None) =>
              data == old(data) && storage == old(storage) && route == old(route) && error == Some("")
            case Answered(false, message, _) =>
              data == old(data) && storage == old(storage) && route == old(route) && error == message
            case Threw(message) =>
              data == old(data) && storage == old(storage) && route == old(route) && error == message)
    {
      error := Some("");
      if email == "" || password == "" {
        error := Some(CREDENTIALS_REQUIRED);
        return;
      }
      var payload := LoginPayload(email, password);
      loading := true;
      requests := requests + [ApiRequest(LOGIN_ENDPOINT, "POST", Some(payload))];
      match answer {
        case Answered(success, message, d) =>
          if success && d.Some? {
            data := d;
            storage := SignedIn(storage, d.value);
            route := Some(DASHBOARD_ROUTE);
          } else if !success {
            error := message;
          }
        case Threw(message) =>
          error := message;
      }
      loading := false;
    }
  }

  /** A successful login leaves the user's id where the other pages read it. */
  method ScenarioLoginStoresId() returns (stored: string, shown: Option<string>)
    ensures DigitsValue(stored) == 42 && shown == Some("")
  {
    var form := new LoginForm(map[]);
    form.Fill("ann@example.com", "secret1");
    var d := AuthData("t", 42, "user");
    form.HandleLogin(Answered(true, None, Some(d)));
    StoredIdReadsBack(map[], d);
    stored, shown := form.storage[ID_KEY], form.error;
  }
}
