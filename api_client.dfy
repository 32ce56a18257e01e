/** The authenticated request client (`ApiClient`): one mutable token cell,
    a request hook that authenticates lazily and attaches the Authorization
    header, and a response hook that replays a request after a 401 and turns
    every other failure into one of three error messages.

    The HTTP transport and the authentication endpoint are scripted oracles:
    each request consumes the next scripted reply. The functions below
    (StepAuthenticate, PreCall, StepRequest) give the meaning of one call on a
    snapshot of the client's state; the methods of class ApiClient change the
    state in place and are proved to agree with them. */
module Client {
  import opened Wrappers
  import opened JsValues
  import opened Text

  datatype Verb = GET | POST | PUT | DELETE

  /** A request body: JSON, or the multipart form the import service uploads. */
  datatype Body =
    | Json(value: JsValue)
    | Multipart(field: string, filename: string, contentType: string, content: string)

  /** What a service hands the client: verb, path relative to the base URL, optional body. */
  datatype Descriptor = Descriptor(verb: Verb, path: string, body: Option<Body>)

  /** One request handed to the transport, with its Authorization header.
      It is logged whatever the transport then does with it, so a `NotSent`
      reply also leaves an entry. */
  datatype Sent = Sent(verb: Verb, url: string, authorization: string, body: Option<Body>)

  /** The scripted transport's answer to one request: a 2xx body, an HTTP
      error status with its body and the transport's message, a request that
      got no response, or a request that could not be sent. */
  datatype Reply =
    | Answered(data: JsValue)
    | Rejected(status: int, data: JsValue, message: string)
    | NoReply(message: string)
    | NotSent(message: string)

  /** The scripted authentication endpoint's answer. `Granted(t)` is a 2xx
      answer whose `data.token` reads as `t`: any JSON value, or `Undefined`
      when the body has no token field. `Refused(m)` is any thrown error, `m`
      its message (`None` when the thrown value is not an `Error`). */
  datatype AuthReply = Granted(token: JsValue) | Refused(message: Option<string>)

  datatype HttpResponse = HttpResponse(status: int, data: JsValue)

  /** What the response hook inspects of a rejected request: the response if
      one arrived, whether the request was sent, and the error's message. */
  datatype TransportError = TransportError(response: Option<HttpResponse>, requestSent: bool, message: string)

  /** The errors a caller of the client can observe. */
  datatype ClientError =
    | ApiError(status: int, detail: JsValue)   // "Documize API error (<status>): <JSON of detail>"
    | NoResponseReceived                       // "No response received from Documize API"
    | RequestError(message: string)            // "Request error: <message>"
    | AuthenticationFailed(cause: string)      // "Authentication failed: <cause>"
    | ScriptExhausted                          // the scripted oracle has no further reply

  /** A snapshot of the client: its configuration, its token, what remains of
      the two scripts, how often `authenticate` has run and every request
      handed to the transport. */
  datatype Session = Session(
    baseURL: string,
    credentials: string,
    token: JsValue,
    replies: seq<Reply>,
    authReplies: seq<AuthReply>,
    authCalls: nat,
    sent: seq<Sent>)

  /** The outcome of one operation on a snapshot, with the snapshot afterwards. */
  datatype Step<T> = Step(result: Result<T, ClientError>, after: Session)

  const AuthenticatePath: string := "/api/public/authenticate"

  /** The substring the response hook tests before replaying a 401. */
  const AuthenticateMarker: string := "/authenticate"

  /** `Basic ${this.credentials}`. */
  function BasicHeader(credentials: string): (h: string)
    ensures StartsWith(h, "Basic ") && h[6..] == credentials
  {
    "Basic " + credentials
  }

  /** `Bearer ${this.token}`: whatever the token holds is interpolated, so a
      missing token field reads `Bearer undefined` and a `null` one `Bearer null`. */
  function BearerHeader(token: JsValue): (h: string)
    ensures StartsWith(h, "Bearer ") && h[7..] == ToJsString(token)
  {
    "Bearer " + ToJsString(token)
  }

  /** `!!this.token`: an empty, `null`, `0` or `false` token counts as no token. */
  predicate TokenHeld(token: JsValue) {
    Truthy(token)
  }

  /** The request `authenticate` sends: a POST of `{}` to the absolute
      authentication URL with the credentials as a Basic challenge. */
  function AuthRequest(s: Session): (e: Sent)
    ensures e.verb == POST && e.url == s.baseURL + "/api/public/authenticate"
    ensures e.authorization == BasicHeader(s.credentials) && e.body == Some(Json(Obj(map[])))
  {
    Sent(POST, s.baseURL + AuthenticatePath, BasicHeader(s.credentials), Some(Json(Obj(map[]))))
  }

  /** The state of a freshly constructed client. */
  function Fresh(baseURL: string, credentials: string, replies: seq<Reply>, authReplies: seq<AuthReply>): (s: Session)
    ensures s.baseURL == StripTrailingSlash(baseURL)
    ensures s.baseURL + "/" == baseURL || s.baseURL == baseURL
    ensures s.credentials == credentials && s.token == Null
    ensures s.authCalls == 0 && s.sent == []
  {
    Session(StripTrailingSlash(baseURL), credentials, Null, replies, authReplies, 0, [])
  }

  /** `authenticate()`: send the authentication request; on success store
      `data.token`, on failure raise `Authentication failed: <message>`. */
  function StepAuthenticate(s: Session): (r: Step<()>)
    ensures r.after.baseURL == s.baseURL && r.after.credentials == s.credentials
    ensures r.after.replies == s.replies
    ensures r.result.Err? ==> r.after.token == s.token
    ensures r.result.Ok? <==> |s.authReplies| > 0 && s.authReplies[0].Granted?
    ensures r.result.Ok? ==> r.after.token == s.authReplies[0].token
    ensures |s.authReplies| > 0 ==>
      r.after.authCalls == s.authCalls + 1 && r.after.sent == s.sent + [AuthRequest(s)] &&
      r.after.authReplies == s.authReplies[1..]
    ensures |s.authReplies| > 0 && s.authReplies[0].Refused? ==>
      r.result == Err(AuthenticationFailed(s.authReplies[0].message.GetOr("Unknown error")))
  {
    if |s.authReplies| == 0 then Step(Err(ScriptExhausted), s)
    else
      var s1 := s.(authReplies := s.authReplies[1..], authCalls := s.authCalls + 1,
                   sent := s.sent + [AuthRequest(s)]);
      match s.authReplies[0]
      case Granted(t) => Step(Ok(()), s1.(token := t))
      case Refused(m) => Step(Err(AuthenticationFailed(m.GetOr("Unknown error"))), s1)
  }

  /** The request hook: the Authorization header a request goes out with,
      after authenticating first when no token is held. */
  function PreCall(s: Session, d: Descriptor): (r: Step<string>)
    ensures r.after.baseURL == s.baseURL && r.after.credentials == s.credentials
    ensures r.after.replies == s.replies
    ensures Contains(d.path, AuthenticatePath) ==>
      r == Step(Ok(BasicHeader(s.credentials)), s)
    ensures !Contains(d.path, AuthenticatePath) && TokenHeld(s.token) ==>
      r == Step(Ok(BearerHeader(s.token)), s)
    ensures !Contains(d.path, AuthenticatePath) && !TokenHeld(s.token) ==>
      var a := StepAuthenticate(s);
      r.after == a.after &&
      r.result == (if a.result.Ok? then Ok(BearerHeader(a.after.token)) else Err(a.result.error))
  {
    if Contains(d.path, AuthenticatePath) then Step(Ok(BasicHeader(s.credentials)), s)
    else if TokenHeld(s.token) then Step(Ok(BearerHeader(s.token)), s)
    else
      var a := StepAuthenticate(s);
      match a.result
      case Ok(_) => Step(Ok(BearerHeader(a.after.token)), a.after)
      case Err(e) => Step(Err(e), a.after)
  }

  /** The response hook's error mapping. Exactly one of three cases applies:
      a response arrived (its data, or the error message when the data is
      falsy, is the detail), the request was sent without a response, or
      the request was never sent. */
  function Normalize(f: TransportError): (e: ClientError)
    ensures e.ApiError? <==> f.response.Some?
    ensures e.NoResponseReceived? <==> f.response.None? && f.requestSent
    ensures e.RequestError? <==> f.response.None? && !f.requestSent
    ensures e.ApiError? ==> e.status == f.response.value.status
    ensures e.ApiError? && Truthy(f.response.value.data) ==> e.detail == f.response.value.data
    ensures e.ApiError? && !Truthy(f.response.value.data) ==> e.detail == Str(f.message)
    ensures e.RequestError? ==> e.message == f.message
  {
    if f.response.Some? then
      ApiError(f.response.value.status, Or(f.response.value.data, Str(f.message)))
    else if f.requestSent then NoResponseReceived
    else RequestError(f.message)
  }

  /** The error object the transport rejects with for a failed reply. */
  function FailureOf(reply: Reply): TransportError
    requires !reply.Answered?
  {
    match reply
    case Rejected(status, data, message) => TransportError(Some(HttpResponse(status, data)), true, message)
    case NoReply(message) => TransportError(None, true, message)
    case NotSent(message) => TransportError(None, false, message)
  }

  /** A rejection of the request hook reaches the response hook's error
      handler as a plain `Error`: no response, no request, only a message. */
  function HookRejected(e: ClientError): (r: ClientError)
    ensures e.AuthenticationFailed? ==> r == RequestError("Authentication failed: " + e.cause)
    ensures !e.AuthenticationFailed? ==> r == e
  {
    match e
    case AuthenticationFailed(cause) => Normalize(TransportError(None, false, "Authentication failed: " + cause))
    case _ => e
  }

  /** The response hook replays a reply: a 401 on a URL without `/authenticate`. */
  predicate Replays(reply: Reply, d: Descriptor) {
    reply.Rejected? && reply.status == 401 && !Contains(d.path, AuthenticateMarker)
  }

  /** What a reply that is not replayed resolves to: the body unchanged, or a normalised error. */
  function Settle(reply: Reply): (r: Result<JsValue, ClientError>)
    ensures r.Ok? <==> reply.Answered?
    ensures reply.Answered? ==> r.value == reply.data
    ensures !reply.Answered? ==> r.error == Normalize(FailureOf(reply))
  {
    if reply.Answered? then Ok(reply.data) else Err(Normalize(FailureOf(reply)))
  }

  /** `this.client.request(config)`: the request hook, one transport reply,
      then the response hook, which after a replayable 401 clears the token,
      authenticates and sends the same request again through both hooks.
      Nothing bounds the replays but the script. */
  function StepRequest(s: Session, d: Descriptor): (r: Step<JsValue>)
    ensures r.after.baseURL == s.baseURL && r.after.credentials == s.credentials
    ensures |r.after.replies| <= |s.replies|
    decreases |s.replies|
  {
    var pre := PreCall(s, d);
    match pre.result
    case Err(e) => Step(Err(HookRejected(e)), pre.after)
    case Ok(header) =>
      var s1 := pre.after;
      if |s1.replies| == 0 then Step(Err(ScriptExhausted), s1)
      else
        var reply := s1.replies[0];
        var s2 := s1.(replies := s1.replies[1..], sent := s1.sent + [Sent(d.verb, d.path, header, d.body)]);
        if Replays(reply, d) then
          var a := StepAuthenticate(s2.(token := Null));
          match a.result
          case Err(e) => Step(Err(e), a.after)
          case Ok(_) => StepRequest(a.after, d)
        else Step(Settle(reply), s2)
  }

  /** The text of the `Error` a caller catches. `stringify` stands for
      `JSON.stringify`. */
  function ErrorMessage(e: ClientError, stringify: JsValue -> string): (m: string)
    requires !e.ScriptExhausted?
    ensures e.ApiError? ==> StartsWith(m, "Documize API error (")
    ensures e.ApiError? ==> m == "Documize API error (" + IntToString(e.status) + "): " + stringify(e.detail)
    ensures e.NoResponseReceived? ==> m == "No response received from Documize API"
    ensures e.RequestError? ==> m == "Request error: " + e.message
    ensures e.AuthenticationFailed? ==> m == "Authentication failed: " + e.cause
  {
    match e
    case ApiError(status, detail) =>
      var m := "Documize API error (" + IntToString(status) + "): " + stringify(detail);
      assert m[..20] == "Documize API error (";
      m
    case NoResponseReceived => "No response received from Documize API"
    case RequestError(message) => "Request error: " + message
    case AuthenticationFailed(cause) => "Authentication failed: " + cause
  }

  /** The client. `replies` and `authReplies` stand for the axios instance
      and the global `axios.post` used by `authenticate`. */
  class ApiClient {
    const baseURL: string
    const credentials: string
    var token: JsValue
    var replies: seq<Reply>
    var authReplies: seq<AuthReply>
    ghost var authCalls: nat
    ghost var sent: seq<Sent>

    ghost function State(): Session
      reads this
    {
      Session(baseURL, credentials, token, replies, authReplies, authCalls, sent)
    }

    /** Strips one trailing slash, stores the credentials, holds no token and
        contacts nobody. */
    constructor (baseURL: string, credentials: string, replies: seq<Reply>, authReplies: seq<AuthReply>)
      ensures State() == Fresh(baseURL, credentials, replies, authReplies)
    {
      this.baseURL := StripTrailingSlash(baseURL);
      this.credentials := credentials;
      this.token := Null;
      this.replies := replies;
      this.authReplies := authReplies;
      this.authCalls := 0;
      this.sent := [];
    }

    method Authenticate() returns (r: Result<(), ClientError>)
      modifies this
      ensures Step(r, State()) == StepAuthenticate(old(State()))
    {
      if |authReplies| == 0 {
        r := Err(ScriptExhausted);
        return;
      }
      var reply := authReplies[0];
      authReplies := authReplies[1..];
      authCalls := authCalls + 1;
      sent := sent + [AuthRequest(State())];
      match reply
      case Granted(t) =>
        token := t;
        r := Ok(());
      case Refused(m) =>
        r := Err(AuthenticationFailed(m.GetOr("Unknown error")));
    }

    method Request(d: Descriptor) returns (r: Result<JsValue, ClientError>)
      modifies this
      ensures Step(r, State()) == StepRequest(old(State()), d)
      decreases |replies|
    {
      // request hook
      var header: string;
      if Contains(d.path, AuthenticatePath) {
        header := BasicHeader(credentials);
      } else {
        if !TokenHeld(token) {
          var a := Authenticate();
          if a.Err? {
            r := Err(HookRejected(a.error));
            return;
          }
        }
        header := BearerHeader(token);
      }
      if |replies| == 0 {
        r := Err(ScriptExhausted);
        return;
      }
      // transport
      var reply := replies[0];
      replies := replies[1..];
      sent := sent + [Sent(d.verb, d.path, header, d.body)];
      // response hook
      if Replays(reply, d) {
        token := Null;
        var a := Authenticate();
        if a.Err? {
          r := Err(a.error);
          return;
        }
        r := Request(d);
      } else {
        r := Settle(reply);
      }
    }

    /** `get(path)`: the response's data, or the error. */
    method Get(path: string) returns (r: Result<JsValue, ClientError>)
      modifies this
      ensures Step(r, State()) == StepRequest(old(State()), Descriptor(GET, path, None))
    {
      r := Request(Descriptor(GET, path, None));
    }

    method Post(path: string, data: Option<Body>) returns (r: Result<JsValue, ClientError>)
      modifies this
      ensures Step(r, State()) == StepRequest(old(State()), Descriptor(POST, path, data))
    {
      r := Request(Descriptor(POST, path, data));
    }

    method Put(path: string, data: Option<Body>) returns (r: Result<JsValue, ClientError>)
      modifies this
      ensures Step(r, State()) == StepRequest(old(State()), Descriptor(PUT, path, data))
    {
      r := Request(Descriptor(PUT, path, data));
    }

    method Delete(path: string) returns (r: Result<JsValue, ClientError>)
      modifies this
      ensures Step(r, State()) == StepRequest(old(State()), Descriptor(DELETE, path, None))
    {
      r := Request(Descriptor(DELETE, path, None));
    }

    /** How a service method issues its descriptor: through the one verb
        method it names (`get` and `delete` take no body). */
    method Call(d: Descriptor) returns (r: Result<JsValue, ClientError>)
      modifies this
      ensures Step(r, State()) == StepRequest(old(State()), Issued(d))
    {
      match d.verb
      case GET => r := Get(d.path);
      case POST => r := Post(d.path, d.body);
      case PUT => r := Put(d.path, d.body);
      case DELETE => r := Delete(d.path);
    }
  }

  /** The request a descriptor becomes when issued through its verb method. */
  function Issued(d: Descriptor): (r: Descriptor)
    ensures r.verb == d.verb && r.path == d.path
    ensures r.verb == GET || r.verb == DELETE ==> r.body == None
    ensures r.verb == POST || r.verb == PUT ==> r.body == d.body
  {
    if d.verb == GET || d.verb == DELETE then d.(body := None) else d
  }
}
