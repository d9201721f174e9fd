/** The signup form: its local guards, the payload it posts and what it does
    with the answer. */
module SignupPage {
  import opened Common
  import opened Joi
  import opened UserValidation
  import opened ApiClient

  const ALL_FIELDS_REQUIRED := "All fields are required"
  const PASSWORDS_DO_NOT_MATCH := "Passwords do not match"
  const SIGNUP_FAILED := "Signup failed"
  const SIGNUP_ENDPOINT := "users/signup"
  /** The exception raised by reading the token of a success answer that has
      no `data`. */
  const MISSING_DATA_ERROR := "Cannot read properties of undefined (reading 'token')"

  /** The body posted to the signup route; an empty mobile is sent as `null`. */
  function SignupPayload(firstName: string, lastName: string, email: string, password: string,
                         confirmPassword: string, mobile: string): (b: Body)
    ensures b.Keys == {"firstName", "lastName", "email", "password", "confirmPassword", "mobile"}
    ensures b["firstName"] == JStr(firstName) && b["lastName"] == JStr(lastName) && b["email"] == JStr(email)
    ensures b["password"] == JStr(password) && b["confirmPassword"] == JStr(confirmPassword)
    ensures b["mobile"] == if mobile == "" then JNull else JStr(mobile)
  {
    map["firstName" := JStr(firstName), "lastName" := JStr(lastName), "email" := JStr(email),
        "password" := JStr(password), "confirmPassword" := JStr(confirmPassword),
        "mobile" := if mobile == "" then JNull else JStr(mobile)]
  }

  /** A payload that passed the form's guards meets the server's signup schema
      exactly when the email is well formed, the password has 6 to 20
      characters and the mobile is empty or well formed: the form checks no
      format and no length. */
  lemma PayloadMeetsSchema(firstName: string, lastName: string, email: string, password: string, mobile: string)
    requires firstName != "" && lastName != "" && email != "" && password != ""
    ensures SignupIssue(SignupPayload(firstName, lastName, email, password, password, mobile)).None? <==>
      IsEmail(email) && 6 <= |password| <= 20 && (mobile == "" || IsMobile(mobile))
  {
    var b := SignupPayload(firstName, lastName, email, password, password, mobile);
    assert Present(b, "email");
  }

  class SignupForm {
    var firstName: string
    var lastName: string
    var mobile: string
    var email: string
    var password: string
    var confirmPassword: string
    var loading: bool
    /** The error line; None is `undefined` (a failure answer without a
        message). */
    var error: Option<string>
    var storage: map<string, string>
    /** The route pushed after signing up, if any. */
    var route: Option<string>
    var requests: seq<ApiRequest>

    constructor (storage: map<string, string>)
      ensures firstName == "" && lastName == "" && mobile == "" && email == ""
      ensures password == "" && confirmPassword == ""
      ensures !loading && error == Some("") && this.storage == storage && route == None && requests == []
    {
      firstName, lastName, mobile, email, password, confirmPassword := "", "", "", "", "", "";
      loading, error, this.storage, route, requests := false, Some(""), storage, None, [];
    }

    /** Typing into the six inputs. */
    method Fill(firstName: string, lastName: string, mobile: string, email: string,
                password: string, confirmPassword: string)
      modifies this
      ensures this.firstName == firstName && this.lastName == lastName && this.mobile == mobile
      ensures this.email == email && this.password == password && this.confirmPassword == confirmPassword
      ensures loading == old(loading) && error == old(error) && storage == old(storage)
      ensures route == old(route) && requests == old(requests)
    {
      this.firstName, this.lastName, this.mobile := firstName, lastName, mobile;
      this.email, this.password, this.confirmPassword := email, password, confirmPassword;
    }

    /** `handleSignup`. The error is cleared first. An empty required field,
        then a confirmation that differs, stops the attempt before any
        request (the mobile is optional). Otherwise the payload is posted and
        the answer decides: success stores the session and goes to the
        dashboard, failure shows the answer's message, an exception shows its
        message or "Signup failed"; loading is off afterwards. */
    method HandleSignup(answer: AuthAnswer)
      modifies this
      ensures firstName == old(firstName) && lastName == old(lastName) && mobile == old(mobile)
      ensures email == old(email) && password == old(password) && confirmPassword == old(confirmPassword)
      ensures old(firstName) == "" || old(lastName) == "" || old(email) == "" || old(password) == "" || old(confirmPassword) == "" ==>
        && error == Some(ALL_FIELDS_REQUIRED)
        && requests == old(requests) && storage == old(storage) && route == old(route) && loading == old(loading)
      ensures !(old(firstName) == "" || old(lastName) == "" || old(email) == "" || old(password) == "" || old(confirmPassword) == "")
              && old(password) != old(confirmPassword) ==>
        && error == Some(PASSWORDS_DO_NOT_MATCH)
        && requests == old(requests) && storage == old(storage) && route == old(route) && loading == old(loading)
      ensures !(old(firstName) == "" || old(lastName) == "" || old(email) == "" || old(password) == "" || old(confirmPassword) == "")
              && old(password) == old(confirmPassword) ==>
        && requests == old(requests) + [ApiRequest(SIGNUP_ENDPOINT, "POST",
             Some(SignupPayload(old(firstName), old(lastName), old(email), old(password), old(confirmPassword), old(mobile))))]
        && !loading
        && (match answer
            case Answered(true, _, Some(d)) =>
              storage == SignedIn(old(storage), d) && route == Some(DASHBOARD_ROUTE) && error == Some("")
            case Answered(true, _, None) =>
              storage == old(storage) && route == old(route) && error == Some(MISSING_DATA_ERROR)
            case Answered(false, message, _) =>
              storage == old(storage) && route == old(route) && error == message
            case Threw(message) =>
              storage == old(storage) && route == old(route)
              && error == Some(if Truthy(message) then message.value else SIGNUP_FAILED))
    {
      error := Some("");
      if firstName == "" || lastName == "" || email == "" || password == "" || confirmPassword == "" {
        error := Some(ALL_FIELDS_REQUIRED);
        return;
      }
      if password != confirmPassword {
        error := Some(PASSWORDS_DO_NOT_MATCH);
        return;
      }
      Submit(answer);
    }

    /** The part of `handleSignup` after the guards: the POST and what the
        answer does. */
    method Submit(answer: AuthAnswer)
      modifies this
      ensures firstName == old(firstName) && lastName == old(lastName) && mobile == old(mobile)
      ensures email == old(email) && password == old(password) && confirmPassword == old(confirmPassword)
      ensures requests == old(requests) + [ApiRequest(SIGNUP_ENDPOINT, "POST",
                Some(SignupPayload(old(firstName), old(lastName), old(email), old(password), old(confirmPassword), old(mobile))))]
      ensures !loading
      ensures match answer
        case Answered(true, _, Some(d)) =>
          storage == SignedIn(old(storage), d) && route == Some(DASHBOARD_ROUTE) && error == old(error)
        case Answered(true, _, None) =>
          storage == old(storage) && route == old(route) && error == Some(MISSING_DATA_ERROR)
        case Answered(false, message, _) =>
          storage == old(storage) && route == old(route) && error == message
        case Threw(message) =>
          storage == old(storage) && route == old(route)
          && error == Some(if Truthy(message) then message.value else SIGNUP_FAILED)
    {
      var payload := SignupPayload(firstName, lastName, email, password, confirmPassword, mobile);
      loading := true;
      requests := requests + [ApiRequest(SIGNUP_ENDPOINT, "POST", Some(payload))];
      Settle(answer);
      loading := false;
    }

    /** What the signup answer does to the page. */
    method Settle(answer: AuthAnswer)
      modifies this
      ensures firstName == old(firstName) && lastName == old(lastName) && mobile == old(mobile)
      ensures email == old(email) && password == old(password) && confirmPassword == old(confirmPassword)
      ensures requests == old(requests) && loading == old(loading)
      ensures match answer
        case Answered(true, _, Some(d)) =>
          storage == SignedIn(old(storage), d) && route == Some(DASHBOARD_ROUTE) && error == old(error)
        case Answered(true, _, None) =>
          storage == old(storage) && route == old(route) && error == Some(MISSING_DATA_ERROR)
        case Answered(false, message, _) =>
          storage == old(storage) && route == old(route) && error == message
        case Threw(message) =>
          storage == old(storage) && route == old(route)
          && error == Some(if Truthy(message) then message.value else SIGNUP_FAILED)
    {
      match answer {
        case Answered(success, message, data) =>
          if success {
            if data.Some? {
              storage := SignedIn(storage, data.value);
              route := Some(DASHBOARD_ROUTE);
            } else {
              error := Some(MISSING_DATA_ERROR);
            }
          } else {
            error := message;
          }
        case Threw(message) =>
          error := Some(if Truthy(message) then message.value else SIGNUP_FAILED);
      }
    }
  }

  /** A confirmation that differs is refused by the form itself: nothing is
      posted, so the server's own "passwords differ" refusal is never
      reached from this form. */
  method ScenarioMismatchStaysLocal() returns (sent: nat, shown: Option<string>)
    ensures sent == 0 && shown == Some(PASSWORDS_DO_NOT_MATCH)
  {
    var form := new SignupForm(map[]);
    form.Fill("Ann", "Lee", "", "ann@example.com", "secret1", "secret2");
    form.HandleSignup(Answered(true, None, Some(AuthData("t", 1, "user"))));
    sent, shown := |form.requests|, form.error;
  }
}
