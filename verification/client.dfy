/** The Transmission RPC client core: the endpoint a client posts to, the
    request it builds, the session-token handshake around each call, and the
    `{result, arguments}` envelope the typed helpers unwrap.

    The HTTP server is an oracle: a sequence of replies, the i-th answering the
    i-th request of a call. Decoding response bytes is an oracle too (a
    function from body text to a decoded value or an error text). */
module Client {
  import opened Wrappers
  import opened Json
  import Decimal

  // ---------------------------------------------------------------------
  // Endpoint

  /** The parts of a parsed URL that `ResolveReference` reads or writes.
      `path` is the escaped path (`EscapedPath()`), the form the merge
      works on, so an encoded "%2F" is not a segment boundary. */
  datatype Url = Url(scheme: string, user: Option<string>, host: string,
                     path: string, rawQuery: string, fragment: string)

  datatype ClientParams = ClientParams(host: string, user: string, password: string)

  /** Client session state. `sessionId` is "" until a handshake stores one. */
  datatype Client = Client(url: Url, user: string, password: string, sessionId: string)

  /** The relative reference every call is resolved against. */
  const RpcPath: string := "transmission/rpc"

  /** Index of the last '/' in `s`, or -1 when there is none. */
  function LastSlash(s: string): (i: int)
    ensures -1 <= i < |s|
    ensures i >= 0 ==> s[i] == '/'
    ensures forall k :: i < k < |s| ==> s[k] != '/'
  {
    if |s| == 0 then -1
    else if s[|s| - 1] == '/' then |s| - 1
    else LastSlash(s[..|s| - 1])
  }

  /** The path of the relative reference "transmission/rpc" resolved against
      a base path (the merge step of section 5.2.3 of RFC 3986): everything of
      the base up to and including its last '/', then the reference, always
      starting with '/'. */
  function MergePath(basePath: string): (p: string)
    ensures |p| > |RpcPath| && p[0] == '/'
    ensures p[|p| - |RpcPath|..] == RpcPath
    ensures p[|p| - |RpcPath| - 1] == '/'
  {
    var full := basePath[..LastSlash(basePath) + 1] + RpcPath;
    if full[0] == '/' then full else "/" + full
  }

  /** A base path without any '/' (as for "http://localhost:9091") resolves
      to exactly "/transmission/rpc". */
  lemma MergeWithoutDirectory(basePath: string)
    requires forall k :: 0 <= k < |basePath| ==> basePath[k] != '/'
    ensures MergePath(basePath) == "/transmission/rpc"
  {
    NoSlashNoDirectory(basePath);
    var full := basePath[..0] + RpcPath;
    assert full == RpcPath;
    assert full[0] == 't';
    assert "/" + RpcPath == "/transmission/rpc";
  }

  lemma {:induction false} NoSlashNoDirectory(s: string)
    requires forall k :: 0 <= k < |s| ==> s[k] != '/'
    ensures LastSlash(s) == -1
  {
    if |s| > 0 {
      NoSlashNoDirectory(s[..|s| - 1]);
    }
  }

  /** The last segment of the base path is replaced, its directory kept. */
  lemma {:induction false} MergeKeepsDirectory(dir: string, segment: string)
    requires |dir| > 0 && dir[0] == '/' && dir[|dir| - 1] == '/'
    requires forall k :: 0 <= k < |segment| ==> segment[k] != '/'
    ensures MergePath(dir + segment) == dir + RpcPath
  {
    var base := dir + segment;
    assert LastSlash(base) == |dir| - 1 by {
      LastSlashOfSegment(dir, segment);
    }
    assert base[..|dir|] == dir;
  }

  lemma {:induction false} LastSlashOfSegment(dir: string, segment: string)
    requires |dir| > 0 && dir[|dir| - 1] == '/'
    requires forall k :: 0 <= k < |segment| ==> segment[k] != '/'
    ensures LastSlash(dir + segment) == |dir| - 1
    decreases |segment|
  {
    var base := dir + segment;
    if |segment| == 0 {
      assert base == dir;
    } else {
      assert base[..|base| - 1] == dir + segment[..|segment| - 1];
      LastSlashOfSegment(dir, segment[..|segment| - 1]);
    }
  }

  /** `hostPart.ResolveReference(apiPart)`: scheme, user and host come from
      the base, the path is merged, and the base's query and fragment are
      dropped because the reference has a non-empty path. */
  function ResolveEndpoint(base: Url): (u: Url)
    ensures u.scheme == base.scheme && u.user == base.user && u.host == base.host
    ensures u.rawQuery == "" && u.fragment == ""
    ensures u.path == MergePath(base.path)
  {
    Url(base.scheme, base.user, base.host, MergePath(base.path), "", "")
  }

  /** `New`: `parsedHost` is what `url.Parse(params.Host)` returned. A parse
      failure is wrapped; otherwise the client starts with no session token. */
  function New(params: ClientParams, parsedHost: Result<Url, string>): (r: Result<Client, ClientError>)
    ensures parsedHost.Failure? <==> r.Failure?
    ensures parsedHost.Failure? ==> r.error == ParseHostError(parsedHost.error)
    ensures r.Success? ==> r.value.sessionId == ""
                           && r.value.user == params.user && r.value.password == params.password
                           && r.value.url == ResolveEndpoint(parsedHost.value)
  {
    match parsedHost
    case Failure(reason) => Failure(ParseHostError(reason))
    case Success(base) => Success(Client(ResolveEndpoint(base), params.user, params.password, ""))
  }

  lemma LocalhostEndpoint()
    ensures ResolveEndpoint(Url("http", None, "localhost:9091", "", "", "")).path == "/transmission/rpc"
  {
    MergeWithoutDirectory("");
  }

  // ---------------------------------------------------------------------
  // Errors

  datatype ClientError =
    | ParseHostError(reason: string)
    | ExecuteError(reason: string)
    | NoSessionId
    | BodyReadError(reason: string)
    | UnexpectedStatus(status: int, body: string)
    | DecodeError(reason: string)
    | DomainError(result: string)

  /** The text `Error()` returns for each error. */
  function Message(e: ClientError): (m: string)
    ensures e.ParseHostError? ==> m == "error parsing host URL: " + e.reason
    ensures e.ExecuteError? ==> m == "error executing request: " + e.reason
    ensures e.NoSessionId? ==> m == "server returned no session ID"
    ensures e.BodyReadError? ==> m == e.reason
    ensures e.DecodeError? ==> m == "error decoding response body: " + e.reason
    ensures e.DomainError? ==> m == e.result
  {
    match e
    case ParseHostError(r) => "error parsing host URL: " + r
    case ExecuteError(r) => "error executing request: " + r
    case NoSessionId => "server returned no session ID"
    case BodyReadError(r) => r
    case UnexpectedStatus(s, b) => "unexpected " + Decimal.IntToString(s) + " status returned: " + b
    case DecodeError(r) => "error decoding response body: " + r
    case DomainError(m) => m
  }

  /** Every wrapped error's text ends with the text of its cause, as `%w`
      and `%s` append it; the domain error is the server's text verbatim. */
  lemma {:induction false} MessageEndsWithCause(e: ClientError)
    ensures var cause := match e
              case ParseHostError(r) => r
              case ExecuteError(r) => r
              case NoSessionId => ""
              case BodyReadError(r) => r
              case UnexpectedStatus(_, b) => b
              case DecodeError(r) => r
              case DomainError(m) => m;
            |Message(e)| >= |cause| && Message(e)[|Message(e)| - |cause|..] == cause
  {
    if e.UnexpectedStatus? {
      UnexpectedStatusMessage(e.status, e.status, e.body);
    }
  }

  /** The unexpected-status text carries the raw body at its end and spells
      the status so that no other status gives the same text. */
  lemma {:induction false} UnexpectedStatusMessage(s: int, t: int, body: string)
    ensures var m := Message(UnexpectedStatus(s, body));
            |m| >= |body| && m[|m| - |body|..] == body
    ensures Message(UnexpectedStatus(s, body)) == Message(UnexpectedStatus(t, body)) ==> s == t
  {
    var ms := Message(UnexpectedStatus(s, body));
    var mt := Message(UnexpectedStatus(t, body));
    var ds, dt := Decimal.IntToString(s), Decimal.IntToString(t);
    var pre, post := "unexpected ", " status returned: ";
    assert ms == pre + ds + post + body;
    assert ms[|ms| - |body|..] == body;
    if ms == mt {
      assert |ds| == |dt|;
      assert ms[|pre|..|pre| + |ds|] == ds;
      assert mt[|pre|..|pre| + |dt|] == dt;
      Decimal.IntToStringInjective(s, t);
    }
  }

  // ---------------------------------------------------------------------
  // One HTTP exchange

  const SessionIdHeader: string := "X-Transmission-Session-Id"
  const StatusOK: int := 200
  const StatusConflict: int := 409

  /** The POST `doRequest` sends: JSON accept header, basic credentials, the
      session header when a token is held, and the marshalled body. */
  datatype HttpRequest = HttpRequest(url: Url, accept: string, user: string, password: string,
                                     sessionId: Option<string>, body: Json)

  /** A response body: its bytes, or the error reading it failed with. */
  datatype Body = Bytes(text: string) | ReadError(reason: string)

  /** What one `httpClient.Do` produced: a response (status, value of the
      session header, "" when absent, and body) or a transport error. */
  datatype Reply = Reply(status: int, sessionId: string, body: Body) | DoError(reason: string)

  /** The reply to the i-th request of a call; a request the server never
      answers fails like a dropped connection. */
  function Answer(server: seq<Reply>, i: nat): (r: Reply)
    ensures i < |server| ==> r == server[i]
    ensures i >= |server| ==> r.DoError?
  {
    if i < |server| then server[i] else DoError("connection closed")
  }

  function BuildRequest(c: Client, body: Json): (req: HttpRequest)
    ensures req.sessionId.Some? <==> c.sessionId != ""
    ensures req.sessionId.Some? ==> req.sessionId.value == c.sessionId
    ensures req.url == c.url && req.accept == "application/json"
    ensures req.user == c.user && req.password == c.password && req.body == body
  {
    HttpRequest(c.url, "application/json", c.user, c.password,
                if c.sessionId != "" then Some(c.sessionId) else None, body)
  }

  /** The outcome of `post` before decoding, the client with its token after
      the call, and the requests that were sent, in order. */
  datatype Exchange = Exchange(outcome: Result<Body, ClientError>, client: Client, sent: seq<HttpRequest>)

  /** Whether a first reply starts the handshake: a 409 carrying a token. */
  predicate StartsHandshake(r: Reply) {
    r.Reply? && r.status == StatusConflict && r.sessionId != ""
  }

  /** The status check after the final response: only 200 goes on to be
      decoded; any other status reports itself with the raw body. */
  function Finish(status: int, body: Body): (r: Result<Body, ClientError>)
    ensures r.Success? <==> status == StatusOK
    ensures r.Success? ==> r.value == body
    ensures r.Failure? && body.Bytes? ==> r.error == UnexpectedStatus(status, body.text)
    ensures r.Failure? && body.ReadError? ==> r.error == BodyReadError(body.reason)
  {
    if status != StatusOK then
      match body
      case Bytes(t) => Failure(UnexpectedStatus(status, t))
      case ReadError(e) => Failure(BodyReadError(e))
    else Success(body)
  }

  /** The transport part of `Client.post`: send, on 409 store the server's
      token and re-send the same body once, then check the final status. */
  function Post(c: Client, body: Json, server: seq<Reply>): (x: Exchange)
    // one request, or two exactly when the first reply starts the handshake
    ensures 1 <= |x.sent| <= 2
    ensures |x.sent| == 2 <==> StartsHandshake(Answer(server, 0))
    // every request carries the body unchanged; the first one the held token
    ensures forall i :: 0 <= i < |x.sent| ==> x.sent[i].body == body
    ensures x.sent[0] == BuildRequest(c, body)
    // the handshake overwrites the token and the retry carries the new one
    ensures |x.sent| == 2 ==> x.client == c.(sessionId := Answer(server, 0).sessionId)
                              && x.sent[1] == BuildRequest(x.client, body)
                              && x.sent[1].sessionId == Some(Answer(server, 0).sessionId)
    ensures |x.sent| == 1 ==> x.client == c
    // a 409 without a token is fatal and changes nothing
    ensures var r := Answer(server, 0);
            r.Reply? && r.status == StatusConflict && r.sessionId == "" ==> x.outcome == Failure(NoSessionId)
    // transport errors are passed on
    ensures Answer(server, |x.sent| - 1).DoError? ==>
              x.outcome == Failure(ExecuteError(Answer(server, |x.sent| - 1).reason))
    // otherwise the last reply decides, through the status check
    ensures var r := Answer(server, |x.sent| - 1);
            r.Reply? && !(|x.sent| == 1 && r.status == StatusConflict) ==> x.outcome == Finish(r.status, r.body)
  {
    var first := BuildRequest(c, body);
    match Answer(server, 0)
    case DoError(e) => Exchange(Failure(ExecuteError(e)), c, [first])
    case Reply(status, token, b) =>
      if status == StatusConflict then
        if token == "" then Exchange(Failure(NoSessionId), c, [first])
        else
          var c' := c.(sessionId := token);
          var retry := BuildRequest(c', body);
          match Answer(server, 1)
          case DoError(e) => Exchange(Failure(ExecuteError(e)), c', [first, retry])
          case Reply(status', _, b') => Exchange(Finish(status', b'), c', [first, retry])
      else Exchange(Finish(status, b), c, [first])
  }

  /** A retry that meets a second 409 is not retried again: it is an
      unexpected status. */
  lemma SecondConflictIsUnexpected(c: Client, body: Json, server: seq<Reply>)
    requires StartsHandshake(Answer(server, 0))
    requires var r := Answer(server, 1); r.Reply? && r.status == StatusConflict && r.body.Bytes?
    ensures var x := Post(c, body, server);
            |x.sent| == 2 && x.outcome == Failure(UnexpectedStatus(StatusConflict, Answer(server, 1).body.text))
  {
  }

  /** A typical handshake: 409 with token ABC123, then success.
      Two requests, the second carrying ABC123, and the second body returned. */
  lemma HandshakeScenario(c: Client, body: Json, payload: string)
    requires c.sessionId == ""
    ensures var x := Post(c, body, [Reply(409, "ABC123", Bytes("")), Reply(200, "", Bytes(payload))]);
            && |x.sent| == 2
            && x.sent[0].sessionId == None
            && x.sent[1].sessionId == Some("ABC123")
            && x.client.sessionId == "ABC123"
            && x.outcome == Success(Bytes(payload))
  {
  }

  /** A token already held is sent on the first request and kept when the
      server accepts it. */
  lemma HeldTokenReused(c: Client, body: Json, status: int, b: Body)
    requires c.sessionId != "" && status != StatusConflict
    ensures var x := Post(c, body, [Reply(status, "", b)]);
            |x.sent| == 1 && x.sent[0].sessionId == Some(c.sessionId) && x.client == c
  {
  }

  // ---------------------------------------------------------------------
  // Decoding into `dst`

  /** `Client.post` with a destination: `decode` stands for
      `json.NewDecoder(resp.Body).Decode(dst)` and `None` for a nil `dst`. */
  datatype Posted<R> = Posted(outcome: Result<Option<R>, ClientError>, client: Client, sent: seq<HttpRequest>)

  function DecodeBody<R>(b: Body, decode: string -> Result<R, string>): (r: Result<R, ClientError>)
    ensures r.Failure? ==> r.error.DecodeError?
    ensures b.Bytes? && decode(b.text).Success? ==> r == Success(decode(b.text).value)
    ensures b.Bytes? && decode(b.text).Failure? ==> r == Failure(DecodeError(decode(b.text).error))
    ensures b.ReadError? ==> r == Failure(DecodeError(b.reason))
  {
    match b
    case Bytes(t) =>
      (match decode(t)
       case Success(v) => Success(v)
       case Failure(e) => Failure(DecodeError(e)))
    case ReadError(e) => Failure(DecodeError(e))
  }

  function PostInto<R>(c: Client, body: Json, server: seq<Reply>,
                       dst: Option<string -> Result<R, string>>): (p: Posted<R>)
    ensures var x := Post(c, body, server);
            p.client == x.client && p.sent == x.sent
            && (x.outcome.Failure? ==> p.outcome == Failure(x.outcome.error))
            && (x.outcome.Success? && dst.None? ==> p.outcome == Success(None))
            && (x.outcome.Success? && dst.Some? ==>
                  match DecodeBody(x.outcome.value, dst.value)
                  case Success(v) => p.outcome == Success(Some(v))
                  case Failure(e) => p.outcome == Failure(e))
  {
    var x := Post(c, body, server);
    match x.outcome
    case Failure(e) => Posted(Failure(e), x.client, x.sent)
    case Success(b) =>
      match dst
      case None => Posted(Success(None), x.client, x.sent)
      case Some(decode) =>
        match DecodeBody(b, decode)
        case Success(v) => Posted(Success(Some(v)), x.client, x.sent)
        case Failure(e) => Posted(Failure(e), x.client, x.sent)
  }

  // ---------------------------------------------------------------------
  // Envelopes and typed helpers

  /** `Request{Method}`: an object with the single key "method". */
  function RequestBody(rpcMethod: string): (j: Json)
    ensures j.JObj? && Keys(j.members) == ["method"]
    ensures Get(j, "method") == Some(JStr(rpcMethod))
  {
    JObj([("method", JStr(rpcMethod))])
  }

  /** `RequestWithParams{Method, Arguments}`. Every parameter type of the
      client is a struct, which `omitempty` never drops, so "arguments" is
      always present. */
  function RequestWithParamsBody(rpcMethod: string, params: Json): (j: Json)
    ensures j.JObj? && Keys(j.members) == ["method", "arguments"]
    ensures Get(j, "method") == Some(JStr(rpcMethod))
    ensures Get(j, "arguments") == Some(params)
  {
    JObj([("method", JStr(rpcMethod)), ("arguments", params)])
  }

  /** `Response[R]`: the decoded envelope. */
  datatype Response<R> = Response(arguments: R, result: string) {
    predicate IsSuccess() {
      result == "success"
    }
  }

  /** The outcome of a typed call, the client's token state after it, and the
      requests sent. */
  datatype Call<R> = Call(outcome: Result<R, ClientError>, client: Client, sent: seq<HttpRequest>)

  /** The common tail of `post[R]` and `postWithArgs[P, R]`: pass errors on,
      turn a non-success `result` into an error carrying that exact text, and
      return the arguments otherwise. */
  function Unwrap<R>(p: Posted<Response<R>>): (r: Result<R, ClientError>)
    requires p.outcome.Success? ==> p.outcome.value.Some?
    ensures p.outcome.Failure? ==> r == Failure(p.outcome.error)
    ensures p.outcome.Success? && p.outcome.value.Some? ==>
              var resp := p.outcome.value.value;
              if resp.IsSuccess() then r == Success(resp.arguments)
              else r.Failure? && r.error == DomainError(resp.result) && Message(r.error) == resp.result
  {
    match p.outcome
    case Failure(e) => Failure(e)
    case Success(None) => assert false; Failure(NoSessionId)
    case Success(Some(resp)) =>
      if resp.IsSuccess() then Success(resp.arguments) else Failure(DomainError(resp.result))
  }

  /** `post[R]`: a call with no arguments. */
  function CallNoArgs<R>(c: Client, rpcMethod: string, server: seq<Reply>,
                         decode: string -> Result<Response<R>, string>): (r: Call<R>)
    ensures var p := PostInto(c, RequestBody(rpcMethod), server, Some(decode));
            r.client == p.client && r.sent == p.sent && r.outcome == Unwrap(p)
    ensures forall i :: 0 <= i < |r.sent| ==> r.sent[i].body == RequestBody(rpcMethod)
  {
    var p := PostInto(c, RequestBody(rpcMethod), server, Some(decode));
    Call(Unwrap(p), p.client, p.sent)
  }

  /** `postWithArgs[P, R]`: a call whose arguments marshal to `params`. */
  function CallWithArgs<R>(c: Client, rpcMethod: string, params: Json, server: seq<Reply>,
                           decode: string -> Result<Response<R>, string>): (r: Call<R>)
    ensures var p := PostInto(c, RequestWithParamsBody(rpcMethod, params), server, Some(decode));
            r.client == p.client && r.sent == p.sent && r.outcome == Unwrap(p)
    ensures forall i :: 0 <= i < |r.sent| ==> r.sent[i].body == RequestWithParamsBody(rpcMethod, params)
  {
    var p := PostInto(c, RequestWithParamsBody(rpcMethod, params), server, Some(decode));
    Call(Unwrap(p), p.client, p.sent)
  }

  /** The typed helper succeeds exactly when the final reply is a readable
      200 whose body decodes to a "success" envelope, and then returns its
      arguments. */
  lemma CallSucceedsIff<R>(c: Client, body: Json, server: seq<Reply>,
                           decode: string -> Result<Response<R>, string>)
    ensures var x := Post(c, body, server);
            var r := Unwrap(PostInto(c, body, server, Some(decode)));
            r.Success? <==> (x.outcome.Success? && x.outcome.value.Bytes?
                             && decode(x.outcome.value.text).Success?
                             && decode(x.outcome.value.text).value.IsSuccess())
    ensures var x := Post(c, body, server);
            var r := Unwrap(PostInto(c, body, server, Some(decode)));
            r.Success? ==> r.value == decode(x.outcome.value.text).value.arguments
  {
  }

  /** The three kinds of failure stay apart: a transport failure keeps its
      own error, a malformed body gives a decode error, and only a decoded
      envelope can give a domain error. */
  lemma {:induction false} ErrorKindsDistinct<R>(c: Client, body: Json, server: seq<Reply>,
                                                decode: string -> Result<Response<R>, string>)
    ensures var x := Post(c, body, server);
            var r := Unwrap(PostInto(c, body, server, Some(decode)));
            && (x.outcome.Failure? ==> r == Failure(x.outcome.error) && !r.error.DecodeError? && !r.error.DomainError?)
            && (r.Failure? && r.error.DomainError? ==>
                  x.outcome.Success? && x.outcome.value.Bytes?
                  && decode(x.outcome.value.text) == Success(Response(decode(x.outcome.value.text).value.arguments, r.error.result)))
  {
    var x := Post(c, body, server);
    var p := PostInto(c, body, server, Some(decode));
    if x.outcome.Failure? {
      assert x.outcome.error.ExecuteError? || x.outcome.error.NoSessionId?
          || x.outcome.error.UnexpectedStatus? || x.outcome.error.BodyReadError?;
    }
  }

  /** The daemon's rejection "invalid argument" comes back verbatim. */
  lemma DomainErrorScenario<R>(c: Client, rpcMethod: string, args: R,
                               decode: string -> Result<Response<R>, string>)
    requires c.sessionId != ""
    requires decode("{\"result\":\"invalid argument\"}") == Success(Response(args, "invalid argument"))
    ensures var r := CallNoArgs(c, rpcMethod, [Reply(200, "", Bytes("{\"result\":\"invalid argument\"}"))], decode);
            r.outcome.Failure? && Message(r.outcome.error) == "invalid argument" && |r.sent| == 1
  {
  }
}
