/**
 The generic request sender `send_api_request`: it refuses an empty URL,
 decides between a JSON and a raw body, merges the headers, picks the
 request for the method and turns whatever the transport produced into a
 `(success, data)` reply. The network itself is an input: `Transport` says
 what the HTTP library handed back or which exception it raised.
 */
module HttpClient {
  import opened Values

  /** The requests `send_api_request` knows how to issue. */
  datatype Verb = Get | Post | Put | Delete

  /** How the payload travels in the request body: as JSON, as the raw
      `data` argument, or not at all. */
  datatype Body = NoBody | JsonBody(json: Value) | DataBody(data: Value)

  /** One request handed to the HTTP library. `params` is the query-string
      payload, `Null` when none is passed. */
  datatype Request = Request(
    verb: Verb, url: string, params: Value, body: Body,
    headers: map<string, string>, timeout: int)

  /** What the HTTP library produced for a request. A `Response` carries the
      text of the error `raise_for_status` raises for it, if it raises one,
      and the result of decoding the body as JSON, `None` when that fails.
      The other variants are the exception families the sender catches, in
      the order it catches them, each with its message. */
  datatype Transport =
    | Response(status: int, httpError: Option<string>, json: Option<Value>, text: string)
    | ConnectionError(description: string)
    | Timeout(description: string)
    | OtherRequestError(description: string)
    | OtherError(description: string)

  /** The `(success_boolean, response_data_or_error_message)` pair. */
  datatype Reply = Reply(success: bool, data: Value)

  /** A call to a sender: the request it handed to the transport, if it got
      that far, and the reply it returned. */
  datatype Call = Call(sent: Option<Request>, reply: Reply)

  /** The headers and body encoding chosen before dispatch. */
  datatype Negotiation = Negotiation(headers: map<string, string>, asJson: bool)

  const ContentType := "Content-Type"
  const ApplicationJson := "application/json"
  const EmptyUrlMessage := "API Error: URL cannot be empty."
  const UnsupportedPrefix := "API Error: Unsupported HTTP method: "
  const DefaultTimeout := 10

  /** `if headers:` — headers given and not empty. */
  predicate HeadersGiven(headers: Option<map<string, string>>)
  {
    headers.Some? && |headers.value| > 0
  }

  /** The caller's headers as a dictionary, empty when none are given. */
  function CallerHeaders(headers: Option<map<string, string>>): map<string, string>
  {
    if headers.Some? then headers.value else map[]
  }

  /** The caller supplied its own Content-Type header (the key is compared
      exactly, as a dictionary key). */
  predicate CallerSetsContentType(headers: Option<map<string, string>>)
  {
    HeadersGiven(headers) && ContentType in headers.value
  }

  /** A dictionary payload on a method that carries a body. */
  predicate JsonEligible(methodName: string, payload: Value)
  {
    payload.Dict? && Upper(methodName) in {"POST", "PUT", "PATCH"}
  }

  /** Content negotiation and header merging. */
  function Negotiate(methodName: string, payload: Value, headers: Option<map<string, string>>): (r: Negotiation)
    // A dictionary body defaults to JSON when the caller names no Content-Type.
    ensures JsonEligible(methodName, payload) && !CallerSetsContentType(headers) ==>
      r.asJson && ContentType in r.headers
      && r.headers[ContentType] == ApplicationJson
    // A caller's Content-Type is kept, and decides the encoding.
    ensures CallerSetsContentType(headers) ==>
      r.headers == headers.value
      && (r.asJson <==> JsonEligible(methodName, payload) && Lower(headers.value[ContentType]) == ApplicationJson)
    // Nothing but a dictionary body on POST, PUT or PATCH is ever JSON.
    ensures r.asJson ==> JsonEligible(methodName, payload)
    // The caller's headers all survive; at most a Content-Type is added,
    // and only when the caller has none.
    ensures forall k :: k in CallerHeaders(headers) ==> k in r.headers && r.headers[k] == CallerHeaders(headers)[k]
    ensures forall k :: k in r.headers && k !in CallerHeaders(headers) ==>
      k == ContentType && r.headers[k] == ApplicationJson
      && JsonEligible(methodName, payload) && !CallerSetsContentType(headers)
  {
    var (added, asJson) :=
      if JsonEligible(methodName, payload) then
        if !CallerSetsContentType(headers) then (map[ContentType := ApplicationJson], true)
        else if Lower(headers.value[ContentType]) == ApplicationJson then (map[], true)
        else (map[], false)
      else (map[], false);
    Negotiation(if HeadersGiven(headers) then added + headers.value else added, asJson)
  }

  /** The request `send_api_request` would hand to the library, or the
      configuration error it returns without making one. */
  function BuildRequest(url: string, methodName: string, payload: Value,
                        headers: Option<map<string, string>>, timeout: int): (r: Result<Request>)
    ensures url == "" ==> r == Err(EmptyUrlMessage)
    ensures r.Ok? <==> url != "" && Upper(methodName) in {"GET", "POST", "PUT", "DELETE"}
    ensures url != "" && r.Err? ==> r.message == UnsupportedPrefix + methodName
    ensures r.Ok? ==>
      r.value.url == url && r.value.timeout == timeout
      && r.value.headers == Negotiate(methodName, payload, headers).headers
    // GET sends the payload as query parameters and no body.
    ensures r.Ok? && Upper(methodName) == "GET" ==>
      r.value.verb == Get && r.value.params == payload && r.value.body == NoBody
    // POST and PUT send it as JSON or as raw data, as negotiated.
    ensures r.Ok? && Upper(methodName) in {"POST", "PUT"} ==>
      r.value.verb == (if Upper(methodName) == "POST" then Post else Put)
      && r.value.params == Null
      && r.value.body == (if Negotiate(methodName, payload, headers).asJson then JsonBody(payload) else DataBody(payload))
    // DELETE sends nothing.
    ensures r.Ok? && Upper(methodName) == "DELETE" ==>
      r.value.verb == Delete && r.value.params == Null && r.value.body == NoBody
  {
    if url == "" then Err(EmptyUrlMessage)
    else
      var n := Negotiate(methodName, payload, headers);
      var m := Upper(methodName);
      if m == "GET" then Ok(Request(Get, url, payload, NoBody, n.headers, timeout))
      else if m == "POST" then
        Ok(Request(Post, url, Null, if n.asJson then JsonBody(payload) else DataBody(payload), n.headers, timeout))
      else if m == "PUT" then
        Ok(Request(Put, url, Null, if n.asJson then JsonBody(payload) else DataBody(payload), n.headers, timeout))
      else if m == "DELETE" then Ok(Request(Delete, url, Null, NoBody, n.headers, timeout))
      else Err(UnsupportedPrefix + methodName)
  }

  const HttpErrorPrefix := "HTTP error occurred: "
  const ConnectionErrorPrefix := "Connection error occurred: "
  const TimeoutPrefix := "Timeout error occurred: "
  const UnexpectedHead := "An unexpected error occurred "
  const RequestErrorPrefix := UnexpectedHead + "during the API request: "
  const UnexpectedErrorPrefix := UnexpectedHead + "in send_api_request: "

  function HttpErrorDetail(description: string, status: int, text: string): string
  {
    description + " | Status Code: " + IntToString(status) + " | Response: " + text
  }

  function ConnectionDetail(description: string, url: string): string
  {
    description + " (Could not connect to " + url + ")"
  }

  function TimeoutDetail(description: string, url: string, timeout: int): string
  {
    description + " (Request to " + url + " timed out after " + IntToString(timeout) + "s)"
  }

  /** The reply for what the transport produced, once a request was made. */
  function Classify(url: string, timeout: int, t: Transport): (r: Reply)
    // Success is exactly a response that `raise_for_status` lets through,
    // and carries the decoded JSON, or else the raw text.
    ensures r.success <==> t.Response? && t.httpError.None?
    ensures r.success ==> r.data == (if t.json.Some? then t.json.value else Str(t.text))
    // Every failure is a message; an HTTP error names the status and the body.
    ensures !r.success ==> r.data.Str?
    ensures t.Response? && t.httpError.Some? ==>
      StartsWith(r.data.s, HttpErrorPrefix + t.httpError.value)
      && Contains(r.data.s, " | Status Code: " + IntToString(t.status))
      && Contains(r.data.s, " | Response: " + t.text)
  {
    match t
    case Response(status, httpError, json, text) =>
      if httpError.Some? then
        var msg := HttpErrorPrefix + HttpErrorDetail(httpError.value, status, text);
        ContainsSlice(msg, |HttpErrorPrefix + httpError.value|, " | Status Code: " + IntToString(status));
        ContainsSlice(msg, |HttpErrorPrefix + httpError.value + " | Status Code: " + IntToString(status)|, " | Response: " + text);
        Reply(false, Str(msg))
      else
        Reply(true, if json.Some? then json.value else Str(text))
    case ConnectionError(d) =>
      Reply(false, Str(ConnectionErrorPrefix + ConnectionDetail(d, url)))
    case Timeout(d) =>
      Reply(false, Str(TimeoutPrefix + TimeoutDetail(d, url, timeout)))
    case OtherRequestError(d) =>
      Reply(false, Str(RequestErrorPrefix + d))
    case OtherError(d) =>
      Reply(false, Str(UnexpectedErrorPrefix + d))
  }

  lemma ContainsSlice(s: string, i: nat, sub: string)
    requires i + |sub| <= |s| && s[i..i + |sub|] == sub
    ensures Contains(s, sub)
  {
    assert StartsWith(s[i..], sub);
  }

  /** `send_api_request(url, method, payload, headers, timeout)` against a
      transport that produces `t` for the request. */
  function SendApiRequest(url: string, methodName: string, payload: Value,
                          headers: Option<map<string, string>>, timeout: int, t: Transport): (c: Call)
    // Configuration errors are returned without any request being made.
    ensures url == "" ==> c == Call(None, Reply(false, Str(EmptyUrlMessage)))
    ensures c.sent.Some? <==> url != "" && Upper(methodName) in {"GET", "POST", "PUT", "DELETE"}
    ensures url != "" && c.sent.None? ==> c == Call(None, Reply(false, Str(UnsupportedPrefix + methodName)))
    // What is sent is the request built from the arguments, headers and
    // body as negotiated; a refusal returns the builder's message.
    ensures c.sent.Some? ==> BuildRequest(url, methodName, payload, headers, timeout) == Ok(c.sent.value)
    ensures c.sent.None? ==>
      c.reply == Reply(false, Str(BuildRequest(url, methodName, payload, headers, timeout).message))
    ensures c.sent.Some? ==> c.sent.value.url == url && c.reply == Classify(url, timeout, t)
  {
    match BuildRequest(url, methodName, payload, headers, timeout)
    case Err(msg) => Call(None, Reply(false, Str(msg)))
    case Ok(request) => Call(Some(request), Classify(url, timeout, t))
  }

  /** The kinds of failure a reply can report. */
  datatype FailureKind = ConfigurationFailure | HttpFailure | ConnectionFailure | TimeoutFailure
                       | RequestFailure | UnexpectedFailure

  /** The failure kind a message announces, read off its fixed opening. */
  function KindOfMessage(msg: string): Option<FailureKind>
  {
    if StartsWith(msg, "API Error: ") then Some(ConfigurationFailure)
    else if StartsWith(msg, HttpErrorPrefix) then Some(HttpFailure)
    else if StartsWith(msg, ConnectionErrorPrefix) then Some(ConnectionFailure)
    else if StartsWith(msg, TimeoutPrefix) then Some(TimeoutFailure)
    else if StartsWith(msg, RequestErrorPrefix) then Some(RequestFailure)
    else if StartsWith(msg, UnexpectedErrorPrefix) then Some(UnexpectedFailure)
    else None
  }

  /** The failure kind the transport outcome belongs to, if it is a failure. */
  function KindOfTransport(t: Transport): Option<FailureKind>
  {
    match t
    case Response(_, httpError, _, _) => if httpError.Some? then Some(HttpFailure) else None
    case ConnectionError(_) => Some(ConnectionFailure)
    case Timeout(_) => Some(TimeoutFailure)
    case OtherRequestError(_) => Some(RequestFailure)
    case OtherError(_) => Some(UnexpectedFailure)
  }

  lemma StartsWithConcat(a: string, b: string)
    ensures StartsWith(a + b, a)
  {
    assert (a + b)[..|a|] == a;
  }

  /** A string that starts with `p` does not start with a `q` that differs
      from `p` at some position within both. */
  lemma StartsWithExcludes(s: string, p: string, q: string, i: nat)
    requires StartsWith(s, p) && i < |p| && i < |q| && p[i] != q[i]
    ensures !StartsWith(s, q)
  {
    assert s[i] == p[i];
  }

  lemma ConfigurationKind(rest: string)
    ensures KindOfMessage("API Error: " + rest) == Some(ConfigurationFailure)
  {
    StartsWithConcat("API Error: ", rest);
  }

  lemma HttpKind(rest: string)
    ensures KindOfMessage(HttpErrorPrefix + rest) == Some(HttpFailure)
  {
    var m := HttpErrorPrefix + rest;
    StartsWithConcat(HttpErrorPrefix, rest);
    StartsWithExcludes(m, HttpErrorPrefix, "API Error: ", 0);
  }

  lemma ConnectionKind(rest: string)
    ensures KindOfMessage(ConnectionErrorPrefix + rest) == Some(ConnectionFailure)
  {
    var m := ConnectionErrorPrefix + rest;
    StartsWithConcat(ConnectionErrorPrefix, rest);
    StartsWithExcludes(m, ConnectionErrorPrefix, "API Error: ", 0);
    StartsWithExcludes(m, ConnectionErrorPrefix, HttpErrorPrefix, 0);
  }

  lemma TimeoutKind(rest: string)
    ensures KindOfMessage(TimeoutPrefix + rest) == Some(TimeoutFailure)
  {
    var m := TimeoutPrefix + rest;
    StartsWithConcat(TimeoutPrefix, rest);
    StartsWithExcludes(m, TimeoutPrefix, "API Error: ", 0);
    StartsWithExcludes(m, TimeoutPrefix, HttpErrorPrefix, 0);
    StartsWithExcludes(m, TimeoutPrefix, ConnectionErrorPrefix, 0);
  }

  lemma RequestKind(rest: string)
    ensures KindOfMessage(RequestErrorPrefix + rest) == Some(RequestFailure)
  {
    var m := RequestErrorPrefix + rest;
    StartsWithConcat(RequestErrorPrefix, rest);
    // "API Error: " and "An unexpected ..." part at their second character.
    StartsWithExcludes(m, RequestErrorPrefix, "API Error: ", 1);
    StartsWithExcludes(m, RequestErrorPrefix, HttpErrorPrefix, 0);
    StartsWithExcludes(m, RequestErrorPrefix, ConnectionErrorPrefix, 0);
    StartsWithExcludes(m, RequestErrorPrefix, TimeoutPrefix, 0);
  }

  lemma UnexpectedKind(rest: string)
    ensures KindOfMessage(UnexpectedErrorPrefix + rest) == Some(UnexpectedFailure)
  {
    var m := UnexpectedErrorPrefix + rest;
    StartsWithConcat(UnexpectedErrorPrefix, rest);
    // "API Error: " and "An unexpected ..." part at their second character.
    StartsWithExcludes(m, UnexpectedErrorPrefix, "API Error: ", 1);
    StartsWithExcludes(m, UnexpectedErrorPrefix, HttpErrorPrefix, 0);
    StartsWithExcludes(m, UnexpectedErrorPrefix, ConnectionErrorPrefix, 0);
    StartsWithExcludes(m, UnexpectedErrorPrefix, TimeoutPrefix, 0);
    // The two "An unexpected error occurred" prefixes part right after
    // their shared head.
    StartsWithExcludes(m, UnexpectedErrorPrefix, RequestErrorPrefix, |UnexpectedHead|);
  }

  /** Failures stay typed: a failing reply's message tells which kind of
      transport failure produced it, so a timeout never reads as an HTTP
      error. */
  lemma ClassifyKindRecoverable(url: string, timeout: int, t: Transport)
    ensures !Classify(url, timeout, t).success ==>
      KindOfMessage(Classify(url, timeout, t).data.s) == KindOfTransport(t)
  {
    match t
    case Response(status, httpError, _, text) =>
      if httpError.Some? {
        HttpKind(HttpErrorDetail(httpError.value, status, text));
      }
    case ConnectionError(d) =>
      ConnectionKind(ConnectionDetail(d, url));
    case Timeout(d) =>
      TimeoutKind(TimeoutDetail(d, url, timeout));
    case OtherRequestError(d) =>
      RequestKind(d);
    case OtherError(d) =>
      UnexpectedKind(d);
  }

  /** The same for the whole sender: a call refused before any request
      reports a configuration failure. */
  lemma FailureKindRecoverable(url: string, methodName: string, payload: Value,
                               headers: Option<map<string, string>>, timeout: int, t: Transport)
    ensures var c := SendApiRequest(url, methodName, payload, headers, timeout, t);
      !c.reply.success ==>
        KindOfMessage(c.reply.data.s)
          == (if c.sent.None? then Some(ConfigurationFailure) else KindOfTransport(t))
  {
    var c := SendApiRequest(url, methodName, payload, headers, timeout, t);
    if url == "" {
      ConfigurationKind("URL cannot be empty.");
    } else if c.sent.None? {
      assert c.reply.data.s == UnsupportedPrefix + methodName;
      ConfigurationKind("Unsupported HTTP method: " + methodName);
    } else {
      ClassifyKindRecoverable(url, timeout, t);
    }
  }

  /** PATCH takes part in content negotiation, so a dictionary payload gets
      a JSON content type, but no request is ever made for it: the call is
      refused as an unsupported method. */
  lemma PatchNegotiatedButRefused(url: string, fields: seq<Field>, t: Transport)
    requires url != ""
    ensures Negotiate("PATCH", Dict(fields), None).asJson
    ensures Negotiate("PATCH", Dict(fields), None).headers == map[ContentType := ApplicationJson]
    ensures SendApiRequest(url, "PATCH", Dict(fields), None, DefaultTimeout, t)
              == Call(None, Reply(false, Str(UnsupportedPrefix + "PATCH")))
  {
    UpperFixed("PATCH");
  }
}
