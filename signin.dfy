/** The sign-in form's submit handler (pro-network/src/app/auth/signin/page.tsx):
    the input gate, the login request, the classification of the reply, the
    token stored in local storage and the `loading` flag. */
module SignIn {
  import opened Common

  /** The parsed JSON of a login reply, or the parser's error message. */
  datatype LoginData = Unparsable(message: string) | LoginData(error: Option<string>, token: Option<string>)

  /** What the login request produced: `fetch` threw (or reading the body of a
      non-JSON reply threw, which reaches the handler's catch the same way), or
      a reply with its ok flag, its content-type header (None when absent) and
      its body. */
  datatype LoginReply =
    | FetchThrew(message: string)
    | Replied(ok: bool, contentType: Option<string>, data: LoginData)

  /** What the user is shown:
      - MissingFields: the "Please fill in all fields" toast, no request;
      - Failed: the "Authentication failed" toast with a description;
      - SignedIn: the token is stored, "Signed in successfully" is shown and the
        page navigates to the dashboard;
      - Silent: an ok reply without a token; nothing is shown or stored. */
  datatype LoginOutcome = MissingFields | Failed(description: string) | SignedIn(token: string) | Silent

  const TokenKey := "access_token"
  const NonJsonMessage := "Server returned non-JSON response"

  /** The content-type check: present and containing "application/json". An
      absent header fails; a header that starts with the media type passes,
      whatever parameters follow it. */
  function IsJson(contentType: Option<string>): (r: bool)
    ensures contentType.None? ==> !r
    ensures r ==> |contentType.value| >= |"application/json"|
    ensures (contentType.Some? && |contentType.value| >= |"application/json"|
             && contentType.value[..|"application/json"|] == "application/json") ==> r
  {
    contentType.Some? && Includes(contentType.value, "application/json")
  }

  /** The JSON object sent to the login endpoint, as (key, value) pairs: the
      email goes under the key `username`; there is no `email` key. */
  function LoginBody(email: string, password: string): (body: seq<(string, string)>)
    ensures |body| == 2
    ensures ("username", email) in body && ("password", password) in body
    ensures forall kv :: kv in body ==> kv.0 != "email"
  {
    [("username", email), ("password", password)]
  }

  /** The message of the error the handler throws, if it throws. */
  function LoginError(reply: LoginReply): (r: Option<string>)
    ensures reply.FetchThrew? ==> r == Some(reply.message)
    ensures reply.Replied? && !IsJson(reply.contentType) ==> r == Some(NonJsonMessage)
    ensures reply.Replied? && IsJson(reply.contentType) && reply.data.Unparsable? ==>
      r == Some(reply.data.message)
    ensures reply.Replied? && IsJson(reply.contentType) && reply.data.LoginData? ==>
      r == (if reply.ok then None else Some(OrElse(reply.data.error, "Login failed")))
  {
    match reply
    case FetchThrew(m) => Some(m)
    case Replied(ok, contentType, data) =>
      if !IsJson(contentType) then Some(NonJsonMessage)
      else match data
        case Unparsable(m) => Some(m)
        case LoginData(error, _) => if !ok then Some(OrElse(error, "Login failed")) else None
  }

  /** The outcome of submitting `email` and `password` when the server answers `reply`. */
  function LoginOutcomeOf(email: string, password: string, reply: LoginReply): (r: LoginOutcome)
    ensures r == MissingFields <==> email == "" || password == ""
    ensures email != "" && password != "" && reply.Replied? && !IsJson(reply.contentType) ==>
      r == Failed(NonJsonMessage)
    ensures r.SignedIn? <==>
      && email != "" && password != ""
      && reply.Replied? && reply.ok && IsJson(reply.contentType)
      && reply.data.LoginData? && Truthy(reply.data.token)
    ensures r.SignedIn? ==> r.token == reply.data.token.value
    ensures r == Silent <==>
      && email != "" && password != ""
      && reply.Replied? && reply.ok && IsJson(reply.contentType)
      && reply.data.LoginData? && !Truthy(reply.data.token)
    ensures email != "" && password != "" && reply.Replied? && !reply.ok
            && IsJson(reply.contentType) && reply.data.LoginData? ==>
      r == Failed(OrElse(reply.data.error, "Login failed"))
    ensures email != "" && password != "" && reply.FetchThrew? ==>
      r == Failed(if reply.message != "" then reply.message else "Invalid email or password")
    ensures email != "" && password != "" && reply.Replied? && IsJson(reply.contentType)
            && reply.data.Unparsable? ==>
      r == Failed(if reply.data.message != "" then reply.data.message else "Invalid email or password")
    ensures r.Failed? ==> r.description != ""
  {
    if email == "" || password == "" then MissingFields
    else match LoginError(reply)
      case Some(m) => Failed(if m != "" then m else "Invalid email or password")
      case None =>
        if Truthy(reply.data.token) then SignedIn(reply.data.token.value) else Silent
  }

  /** A JSON error reply without an `error` field reports "Login failed". */
  lemma LoginFailedFallback(email: string, password: string, contentType: string)
    requires email != "" && password != ""
    requires Includes(contentType, "application/json")
    ensures LoginOutcomeOf(email, password, Replied(false, Some(contentType), LoginData(None, None)))
            == Failed("Login failed")
  {
  }

  /** The content type "application/json; charset=utf-8" passes the check. */
  lemma CharsetContentTypeIsJson()
    ensures IsJson(Some("application/json; charset=utf-8"))
  {
    assert OccursAt("application/json; charset=utf-8", "application/json", 0);
  }

  /** The sign-in page component: the two inputs, `loading`, and the browser's
      local storage that the handler writes. */
  class SignInPage {
    var email: string
    var password: string
    var loading: bool
    var storage: map<string, string>

    constructor (storage: map<string, string>)
      ensures email == "" && password == "" && !loading && this.storage == storage
    {
      email := "";
      password := "";
      loading := false;
      this.storage := storage;
    }

    method HandleEmailChange(v: string)
      modifies this
      ensures email == v && password == old(password)
      ensures loading == old(loading) && storage == old(storage)
    {
      email := v;
    }

    method HandlePasswordChange(v: string)
      modifies this
      ensures password == v && email == old(email)
      ensures loading == old(loading) && storage == old(storage)
    {
      password := v;
    }

    /** `handleSubmit`. An empty field stops it before any request and leaves
        `loading` alone; otherwise the request is sent, the reply classified, the
        token stored under "access_token" on success, and `loading` is false
        again on every outcome. */
    method HandleSubmit(reply: LoginReply) returns (request: Option<seq<(string, string)>>, outcome: LoginOutcome)
      modifies this
      ensures email == old(email) && password == old(password)
      ensures outcome == LoginOutcomeOf(email, password, reply)
      ensures request == (if outcome == MissingFields then None else Some(LoginBody(email, password)))
      ensures outcome == MissingFields ==> loading == old(loading)
      ensures outcome != MissingFields ==> !loading
      ensures storage == if outcome.SignedIn? then old(storage)[TokenKey := outcome.token] else old(storage)
    {
      if email == "" || password == "" {
        return None, MissingFields;
      }
      loading := true;
      request := Some([("username", email), ("password", password)]);
      var thrown: Option<string> := None;
      outcome := Silent;
      match reply {
        case FetchThrew(m) =>
          thrown := Some(m);
        case Replied(ok, contentType, data) =>
          if !IsJson(contentType) {
            thrown := Some(NonJsonMessage);
          } else {
            match data {
              case Unparsable(m) =>
                thrown := Some(m);
              case LoginData(error, token) =>
                if !ok {
                  thrown := Some(OrElse(error, "Login failed"));
                } else if Truthy(token) {
                  storage := storage[TokenKey := token.value];
                  outcome := SignedIn(token.value);
                }
            }
          }
      }
      if thrown.Some? {
        outcome := Failed(if thrown.value != "" then thrown.value else "Invalid email or password");
      }
      loading := false;
    }
  }
}
