/** The auth service: the requests it sends and how it turns each response
    into a returned body or a thrown error. The network is a parameter: each
    operation receives what `fetch` produced. */
module AuthService {
  import opened Wrappers
  import opened JsStrings
  import opened Sequences
  import opened ApiConfig

  // ---------------------------------------------------------------------
  // Requests

  const RegisterPath := "/register"
  const LoginPath := "/auth/login"
  const LogoutPath := "/auth/logout"

  datatype Header = Header(name: string, value: string)

  datatype Request = Request(httpMethod: string, url: string, headers: seq<Header>)

  /** The JSON headers every call sends, plus the bearer token when one is given. */
  function RequestHeaders(bearer: Option<string>): (hs: seq<Header>)
    ensures Header("Content-Type", "application/json") in hs
    ensures Header("Accept", "application/json") in hs
    ensures Header("X-Requested-With", "XMLHttpRequest") in hs
    ensures bearer.Some? ==> Header("Authorization", "Bearer " + bearer.value) in hs
    ensures forall h :: h in hs && h.name == "Authorization" ==>
              bearer.Some? && h.value == "Bearer " + bearer.value
  {
    [Header("Content-Type", "application/json"), Header("Accept", "application/json")]
    + (if bearer.Some? then [Header("Authorization", "Bearer " + bearer.value)] else [])
    + [Header("X-Requested-With", "XMLHttpRequest")]
  }

  /** The service's `baseUrl` followed by an endpoint's path. */
  function Endpoint(configured: Option<string>, path: string): (u: string)
    ensures StartsWith(u, ApiBaseUrl(configured))
    ensures u[|ApiBaseUrl(configured)|..] == path
  {
    ApiBaseUrl(configured) + path
  }

  function RegisterRequest(configured: Option<string>): (req: Request) {
    Request("POST", Endpoint(configured, RegisterPath), RequestHeaders(None))
  }

  function LoginRequest(configured: Option<string>): (req: Request) {
    Request("POST", Endpoint(configured, LoginPath), RequestHeaders(None))
  }

  function LogoutRequest(configured: Option<string>, token: string): (req: Request) {
    Request("POST", Endpoint(configured, LogoutPath), RequestHeaders(Some(token)))
  }

  /** Every request is a POST to the base URL followed by its own fixed path;
      under one configuration the three URLs are distinct, and only logout
      carries the token. */
  lemma RequestsDistinct(configured: Option<string>, token: string)
    ensures RegisterRequest(configured).url[|ApiBaseUrl(configured)|..] == RegisterPath
    ensures LoginRequest(configured).url[|ApiBaseUrl(configured)|..] == LoginPath
    ensures LogoutRequest(configured, token).url[|ApiBaseUrl(configured)|..] == LogoutPath
    ensures RegisterRequest(configured).httpMethod == LoginRequest(configured).httpMethod
            == LogoutRequest(configured, token).httpMethod == "POST"
    ensures RegisterRequest(configured).url != LoginRequest(configured).url
    ensures LoginRequest(configured).url != LogoutRequest(configured, token).url
    ensures RegisterRequest(configured).url != LogoutRequest(configured, token).url
    ensures Header("Authorization", "Bearer " + token) in LogoutRequest(configured, token).headers
    ensures forall h :: h in RegisterRequest(configured).headers ==> h.name != "Authorization"
    ensures forall h :: h in LoginRequest(configured).headers ==> h.name != "Authorization"
  {
    var base := ApiBaseUrl(configured);
    assert |base + RegisterPath| != |base + LoginPath|;
    assert |base + LoginPath| != |base + LogoutPath|;
    assert |base + RegisterPath| != |base + LogoutPath|;
  }

  // ---------------------------------------------------------------------
  // Responses and outcomes

  /** A thrown JavaScript error, by its `name` and `message`. */
  datatype JsError = JsError(name: string, message: string)

  /** `new Error(message)`. */
  function PlainError(message: string): (e: JsError) {
    JsError("Error", message)
  }

  /** A parsed JSON object body, by the properties the service reads:
      `errors` (the validation map as (field, messages) entries, in the order
      `Object.values` lists them), `message`, and the remaining properties. */
  datatype Body = Body(errors: Option<seq<(string, seq<string>)>>,
                       message: Option<string>,
                       others: map<string, string>)

  /** What a call to `fetch` produced: a rejection, or a response with its
      `ok` flag, status, text and the result of parsing that text as JSON. */
  datatype FetchResult =
    | Rejected(error: JsError)
    | Received(ok: bool, status: nat, text: string, parsed: Result<Body, JsError>)

  /** What a service call does: resolve with a body or throw. */
  datatype Outcome = Returned(body: Body) | Thrown(error: JsError)

  const ConnectionFailedMessage := "Tidak dapat terhubung ke server. " + "Periksa koneksi internet Anda."
  const InvalidJsonPrefix := "Invalid JSON response: "
  const ValidationPrefix := "Validation failed: "
  const StatusFailurePrefix := "Registration failed with status "

  /** `Object.values(errors).flat()`. */
  function ErrorMessages(errors: seq<(string, seq<string>)>): (messages: seq<string>)
  {
    Flatten(seq(|errors|, i requires 0 <= i < |errors| => errors[i].1))
  }

  /** Messages are listed field by field, in field order. */
  lemma ErrorMessagesAppend(a: seq<(string, seq<string>)>, b: seq<(string, seq<string>)>)
    ensures ErrorMessages(a + b) == ErrorMessages(a) + ErrorMessages(b)
  {
    var va := seq(|a|, i requires 0 <= i < |a| => a[i].1);
    var vb := seq(|b|, i requires 0 <= i < |b| => b[i].1);
    assert seq(|a + b|, i requires 0 <= i < |a + b| => (a + b)[i].1) == va + vb;
    FlattenAppend(va, vb);
  }

  /** One more field with a single message extends the validation message
      by the separator and that message. */
  lemma ValidationMessageExtends(errors: seq<(string, seq<string>)>, field: string, m: string)
    requires ErrorMessages(errors) != []
    ensures Join(ErrorMessages(errors + [(field, [m])]), ", ") == Join(ErrorMessages(errors), ", ") + ", " + m
  {
    ErrorMessagesAppend(errors, [(field, [m])]);
    assert seq(1, i requires 0 <= i < 1 => [(field, [m])][i].1) == [[m]];
    assert Flatten([[m]]) == [m] + Flatten([]);
    assert ErrorMessages([(field, [m])]) == [m];
    assert ErrorMessages(errors + [(field, [m])]) == ErrorMessages(errors) + [m];
    JoinSnoc(ErrorMessages(errors), m, ", ");
  }

  /** The message of a non-ok registration whose body parsed. */
  function RegisterFailureMessage(status: nat, body: Body): (message: string)
  {
    if body.errors.Some? then ValidationPrefix + Join(ErrorMessages(body.errors.value), ", ")
    else if Truthy(body.message) then body.message.value
    else StatusFailurePrefix + NatToDecimal(status)
  }

  /** The body of `register`'s try block. */
  function RegisterAttempt(r: FetchResult): (o: Outcome)
  {
    match r
    case Rejected(e) => Thrown(e)
    case Received(ok, status, text, parsed) =>
      if parsed.Failure? then Thrown(PlainError(InvalidJsonPrefix + Prefix(text, 100)))
      else if !ok then Thrown(PlainError(RegisterFailureMessage(status, parsed.value)))
      else Returned(parsed.value)
  }

  /** `register`'s catch: a fetch `TypeError` becomes the connection message,
      anything else is rethrown as it is. */
  function RegisterCatch(e: JsError): (r: JsError)
    ensures e.name == "TypeError" && Includes(e.message, "fetch") ==> r == PlainError(ConnectionFailedMessage)
    ensures !(e.name == "TypeError" && Includes(e.message, "fetch")) ==> r == e
  {
    if e.name == "TypeError" && Includes(e.message, "fetch") then PlainError(ConnectionFailedMessage) else e
  }

  /** `register`: the parse check comes before the status, validation errors
      before the message, the message before the status fallback. */
  function Register(r: FetchResult): (o: Outcome)
    ensures r.Received? && r.parsed.Failure? ==>
              o == Thrown(PlainError(InvalidJsonPrefix + Prefix(r.text, 100)))
    ensures r.Received? && r.parsed.Success? && r.ok ==> o == Returned(r.parsed.value)
    ensures r.Received? && r.parsed.Success? && !r.ok && r.parsed.value.errors.Some? ==>
              o == Thrown(PlainError(ValidationPrefix + Join(ErrorMessages(r.parsed.value.errors.value), ", ")))
    ensures r.Received? && r.parsed.Success? && !r.ok && r.parsed.value.errors.None? ==>
              o == Thrown(PlainError(if Truthy(r.parsed.value.message) then r.parsed.value.message.value
                                     else StatusFailurePrefix + NatToDecimal(r.status)))
    ensures r.Rejected? ==> o == Thrown(RegisterCatch(r.error))
  {
    match RegisterAttempt(r)
    case Returned(b) => Returned(b)
    case Thrown(e) => Thrown(RegisterCatch(e))
  }

  /** The invalid-JSON failure does not depend on the `ok` flag or the status. */
  lemma RegisterParseFailureIgnoresStatus(ok1: bool, status1: nat, ok2: bool, status2: nat,
                                          text: string, e1: JsError, e2: JsError)
    ensures Register(Received(ok1, status1, text, Failure(e1)))
         == Register(Received(ok2, status2, text, Failure(e2)))
  {
  }

  /** The errors the try block throws itself are never masked by the catch. */
  lemma RegisterCatchKeepsOwnErrors(ok: bool, status: nat, text: string, parsed: Result<Body, JsError>)
    ensures Register(Received(ok, status, text, parsed)) == RegisterAttempt(Received(ok, status, text, parsed))
  {
  }

  /** The connection-failure message comes from a rejected fetch, unless the
      server itself sent that text as its `message`. */
  lemma ConnectionMessageOnlyFromFetch(r: FetchResult)
    requires Register(r) == Thrown(PlainError(ConnectionFailedMessage))
    ensures r.Rejected? || (r.parsed.Success? && r.parsed.value.errors.None?
                            && r.parsed.value.message == Some(ConnectionFailedMessage))
  {
    if r.Received? {
      // the three messages the service composes start with "I", "V" and "R"
      assert ConnectionFailedMessage[0] == 'T';
    }
  }

  /** `login`: errors are rethrown unchanged; a non-ok response fails with the
      server's message or a fixed text. */
  function Login(r: FetchResult): (o: Outcome)
    ensures r.Rejected? ==> o == Thrown(r.error)
    ensures r.Received? && r.parsed.Failure? ==> o == Thrown(r.parsed.error)
    ensures r.Received? && r.parsed.Success? && !r.ok ==>
              o == Thrown(PlainError(if Truthy(r.parsed.value.message) then r.parsed.value.message.value
                                     else "Login failed"))
    ensures r.Received? && r.parsed.Success? && r.ok ==> o == Returned(r.parsed.value)
    ensures r.Received? && r.parsed.Success? && o.Thrown? ==> o.error.message != ""
  {
    match r
    case Rejected(e) => Thrown(e)
    case Received(ok, _, _, parsed) =>
      if parsed.Failure? then Thrown(parsed.error)
      else if !ok then Thrown(PlainError(if Truthy(parsed.value.message) then parsed.value.message.value
                                         else "Login failed"))
      else Returned(parsed.value)
  }

  /** Login and registration resolve alike on an ok response with a body. */
  lemma LoginAgreesWithRegisterOnSuccess(status: nat, text: string, body: Body)
    ensures Login(Received(true, status, text, Success(body)))
         == Register(Received(true, status, text, Success(body)))
         == Returned(body)
  {
  }

  /** `logout`: the parsed body is returned whatever the status. */
  function Logout(r: FetchResult): (o: Outcome)
    ensures r.Rejected? ==> o == Thrown(r.error)
    ensures r.Received? ==> o == (if r.parsed.Success? then Returned(r.parsed.value) else Thrown(r.parsed.error))
  {
    match r
    case Rejected(e) => Thrown(e)
    case Received(_, _, _, parsed) =>
      if parsed.Success? then Returned(parsed.value) else Thrown(parsed.error)
  }

  /** Logout's outcome does not depend on the `ok` flag nor the status. */
  lemma LogoutIgnoresStatus(ok1: bool, status1: nat, ok2: bool, status2: nat,
                            text: string, parsed: Result<Body, JsError>)
    ensures Logout(Received(ok1, status1, text, parsed)) == Logout(Received(ok2, status2, text, parsed))
  {
  }
}
