/**
 Logging in to the remote service and pulling the bearer token out of the
 login reply. The login request is fixed: it does not depend on the
 credentials the caller passes.
 */
module Session {
  import opened Values
  import opened HttpClient

  const LoginUrl := "http://poudelanish17.com.np:9002/api/v1/auth/login"
  const LoginEmail := "developer@developer1.com"
  const LoginPassword := "developer1"

  /** A login request for the given credentials: a JSON POST to the login
      endpoint with a ten-second timeout. */
  function CredentialsRequest(email: string, password: string): (r: Request)
    ensures r.verb == Post && r.url == LoginUrl && r.params == Null
    ensures r.headers == map[ContentType := ApplicationJson]
    ensures r.timeout == DefaultTimeout
    ensures r.body.JsonBody? && r.body.json.Dict?
    ensures Lookup(r.body.json.fields, "email") == Some(Str(email))
    ensures Lookup(r.body.json.fields, "password") == Some(Str(password))
  {
    var fields := [Field("email", Str(email)), Field("password", Str(password))];
    assert fields[1].key == "password" && fields[0].key == "email";
    Request(Post, LoginUrl, Null, JsonBody(Dict(fields)), map[ContentType := ApplicationJson], DefaultTimeout)
  }

  /** The one request `attempt_login` ever makes: the built-in credentials. */
  function LoginRequest(): Request
  {
    CredentialsRequest(LoginEmail, LoginPassword)
  }

  /** A reply body: the decoded JSON if the body decodes, else its text. */
  function BodyValue(json: Option<Value>, text: string): Value
  {
    if json.Some? then json.value else Str(text)
  }

  /** How `attempt_login` reads what the transport produced: a 2xx status is
      success whatever the body holds, any other status is failure with the
      body, and a raised exception is failure with its message. */
  function LoginReply(t: Transport): (r: Reply)
    ensures r.success <==> t.Response? && 200 <= t.status < 300
    ensures t.Response? ==> r.data == BodyValue(t.json, t.text)
    ensures !t.Response? ==> r.data == Str(t.description)
  {
    match t
    case Response(status, _, json, text) => Reply(200 <= status < 300, BodyValue(json, text))
    case ConnectionError(d) => Reply(false, Str(d))
    case Timeout(d) => Reply(false, Str(d))
    case OtherRequestError(d) => Reply(false, Str(d))
    case OtherError(d) => Reply(false, Str(d))
  }

  /** `attempt_login(email, password)` as written, against a transport that
      produces `t`: the arguments are accepted and not used. */
  function AttemptLogin(email: string, password: string, t: Transport): (c: Call)
    ensures c.sent == Some(LoginRequest())
    ensures c.reply == LoginReply(t)
  {
    Call(Some(LoginRequest()), LoginReply(t))
  }

  /** `attempt_login` as its documentation describes it: the request carries
      the caller's credentials. */
  function AttemptLoginAsDocumented(email: string, password: string, t: Transport): (c: Call)
    ensures c.sent.Some? && c.sent.value.body.JsonBody? && c.sent.value.body.json.Dict?
    ensures Lookup(c.sent.value.body.json.fields, "email") == Some(Str(email))
    ensures Lookup(c.sent.value.body.json.fields, "password") == Some(Str(password))
    ensures c.reply == LoginReply(t)
  {
    Call(Some(CredentialsRequest(email, password)), LoginReply(t))
  }

  /** The two agree exactly when the caller passes the built-in credentials. */
  lemma DocumentedLoginAgreesOnBuiltInCredentials(email: string, password: string, t: Transport)
    ensures (AttemptLoginAsDocumented(email, password, t) == AttemptLogin(email, password, t))
      <==> (email == LoginEmail && password == LoginPassword)
  {
    if AttemptLoginAsDocumented(email, password, t) == AttemptLogin(email, password, t) {
      var a := CredentialsRequest(email, password);
      var b := LoginRequest();
      assert Lookup(a.body.json.fields, "email") == Lookup(b.body.json.fields, "email");
      assert Lookup(a.body.json.fields, "password") == Lookup(b.body.json.fields, "password");
    }
  }

  /** Any other e-mail address is dropped: the request still names the
      built-in one. */
  lemma LoginDropsCallerEmail(email: string, password: string, t: Transport)
    requires email != LoginEmail
    ensures Lookup(AttemptLogin(email, password, t).sent.value.body.json.fields, "email") != Some(Str(email))
  {
  }

  /** Whatever credentials are passed, the same request goes out and the same
      reply comes back. */
  lemma LoginIgnoresCredentials(e1: string, p1: string, e2: string, p2: string, t: Transport)
    ensures AttemptLogin(e1, p1, t) == AttemptLogin(e2, p2, t)
  {
  }

  /** The login call and the generic sender agree. Given the login request's
      own URL, method, body and headers, `send_api_request` builds the same
      request, and it reaches the same verdict whenever `raise_for_status`
      rejects exactly the statuses outside 2xx; on success both return the
      same body. */
  lemma LoginAgreesWithSendApiRequest(email: string, password: string, t: Transport)
    requires t.Response? ==> (t.httpError.Some? <==> !(200 <= t.status < 300))
    ensures var generic := SendApiRequest(LoginUrl, "POST", LoginRequest().body.json,
                                          Some(map[ContentType := ApplicationJson]), DefaultTimeout, t);
      var login := AttemptLogin(email, password, t);
      && generic.sent == login.sent
      && generic.reply.success == login.reply.success
      && (login.reply.success ==> generic.reply == login.reply)
  {
    var headers := Some(map[ContentType := ApplicationJson]);
    var payload := LoginRequest().body.json;
    UpperFixed("POST");
    LowerFixed(ApplicationJson);
    var n := Negotiate("POST", payload, headers);
    assert CallerSetsContentType(headers);
    assert n.headers == map[ContentType := ApplicationJson] && n.asJson;
    assert BuildRequest(LoginUrl, "POST", payload, headers, DefaultTimeout) == Ok(LoginRequest());
  }

  /** The token taken from a login reply: the value under `"token"` when the
      login succeeded and the reply is a dictionary holding that key, and
      `None` otherwise. */
  function ExtractToken(login: Reply): (token: Value)
    ensures login.success && login.data.Dict? && HasKey(login.data.fields, "token") ==>
      Some(token) == Lookup(login.data.fields, "token")
    ensures !(login.success && login.data.Dict? && HasKey(login.data.fields, "token")) ==> token == Null
  {
    if login.success && login.data.Dict? && HasKey(login.data.fields, "token") then
      Lookup(login.data.fields, "token").value
    else Null
  }

  /** A usable token comes only from a successful login whose reply is a
      dictionary that holds one. */
  lemma TokenNeedsSuccessfulLogin(email: string, password: string, t: Transport)
    requires Truthy(ExtractToken(AttemptLogin(email, password, t).reply))
    ensures t.Response? && 200 <= t.status < 300
    ensures t.json.Some? && t.json.value.Dict? && HasKey(t.json.value.fields, "token")
  {
  }

  /** A 2xx reply `{"token": s}` yields the token `s`. */
  lemma TokenFromLoginReply(email: string, password: string, status: int, httpError: Option<string>, text: string, s: string)
    requires 200 <= status < 300
    ensures ExtractToken(AttemptLogin(email, password,
              Response(status, httpError, Some(Dict([Field("token", Str(s))])), text)).reply) == Str(s)
  {
    var fields := [Field("token", Str(s))];
    assert fields[0].key == "token";
    assert HasKey(fields, "token");
  }

  /** The credentials the capture script passes to `attempt_login`. The
      script keeps its own copy (test3.py lines 33-34); that they equal the
      built-in pair is what `StartupSameAsWritten` rests on. */
  const ScriptEmail := "developer@developer1.com"
  const ScriptPassword := "developer1"

  /** The capture script's start-up: log in once and keep the token, `None`
      when the login gives none. */
  function Startup(t: Transport): (token: Value)
    ensures Truthy(token) ==>
      t.Response? && 200 <= t.status < 300 && t.json.Some? && t.json.value.Dict?
      && HasKey(t.json.value.fields, "token")
      && Some(token) == Lookup(t.json.value.fields, "token")
  {
    ExtractToken(AttemptLogin(ScriptEmail, ScriptPassword, t).reply)
  }

  /** The script passes the built-in credentials, so its start-up is the same
      whether `attempt_login` uses its arguments or not. */
  lemma StartupSameAsWritten(t: Transport)
    ensures Startup(t) == ExtractToken(AttemptLoginAsDocumented(ScriptEmail, ScriptPassword, t).reply)
  {
    DocumentedLoginAgreesOnBuiltInCredentials(ScriptEmail, ScriptPassword, t);
  }
}
