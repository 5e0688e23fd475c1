/** The client's request helper (frontendApp/src/shared/sharedFetch.jsx): it
    shapes a request, sends it, and on a 401 whose message looks like a token
    problem refreshes the access token once and retries once. The network is
    an oracle from a request to the status and the parsed body (a JSON value,
    a string for a body that is not JSON, null for an empty JSON body); the
    refresh token getter is an argument. */
module SharedFetch {
  import opened JsCore
  import Auth

  /** A response: its status and its parsed body. */
  datatype Response = Response(status: int, data: Json)

  /** `res.ok`. */
  predicate IsOk(status: int)
  {
    200 <= status <= 299
  }

  /** `data && typeof data === "object"`: a non-null object or array. */
  predicate IsObjectBody(data: Json)
  {
    data.JObj? || data.JArr?
  }

  // ---------------------------------------------------------------------------
  // Request shaping
  // ---------------------------------------------------------------------------

  /** What `fetch` is called with: the method, the Authorization header if
      any, and the value whose JSON text is the body, if any. */
  datatype Request = Request(endpoint: string, verb: string, authorization: Option<string>, body: Option<Json>)

  /** `String(method || "GET").toUpperCase()`; None is undefined or null. */
  function MethodOf(verb: Option<string>): string
  {
    ToUpper(if verb.Some? && verb.value != "" then verb.value else "GET")
  }

  /** The request `fetchData` sends. `body` None is undefined; `token` is any
      value, and a falsy one sends no Authorization header. */
  function Shape(endpoint: string, verb: Option<string>, body: Option<Json>, token: Option<Json>): (r: Request)
    ensures r.endpoint == endpoint && r.verb == MethodOf(verb)
    ensures r.authorization.Some? <==> Truthy(token)
    ensures r.authorization.Some? ==> r.authorization.value == "Bearer " + JsString(token)
    ensures r.body.Some? <==> r.verb != "GET" && r.verb != "HEAD"
    ensures r.body.Some? ==> r.body.value == if body.None? || body.value.JNull? then JObj([]) else body.value
  {
    var m := MethodOf(verb);
    Request(endpoint, m,
            if Truthy(token) then Some("Bearer " + JsString(token)) else None,
            if m != "GET" && m != "HEAD" then Some(if body.None? || body.value.JNull? then JObj([]) else body.value) else None)
  }

  /** Method names are case-insensitive: a lower-case "get" sends no body,
      and a missing method is GET. */
  lemma LowerCaseGetHasNoBody(endpoint: string, body: Option<Json>, token: Option<Json>)
    ensures Shape(endpoint, Some("get"), body, token).body.None?
    ensures Shape(endpoint, None, body, token).verb == "GET"
  {
    var u := ToUpper("get");
    assert u[0] == 'G' && u[1] == 'E' && u[2] == 'T';
    var g := ToUpper("GET");
    assert g[0] == 'G' && g[1] == 'E' && g[2] == 'T';
  }

  /** The server's middleware recovers exactly the token the client sent. */
  lemma ServerRecoversToken(endpoint: string, verb: Option<string>, body: Option<Json>, token: string)
    requires token != ""
    ensures var r := Shape(endpoint, verb, body, Some(JStr(token)));
            r.authorization.Some? && Auth.Token(r.authorization.value) == token
  {
    Auth.TokenOfBearerHeader(token);
  }

  // ---------------------------------------------------------------------------
  // Deciding to refresh
  // ---------------------------------------------------------------------------

  /** The message `shouldAttemptRefresh` inspects: `msg || message || error`
      of an object body, the body itself when it is a string, else "". */
  function RefreshHint(data: Json): (r: Option<Json>)
    ensures IsObjectBody(data) && Truthy(Prop(Some(data), "msg")) ==> r == Prop(Some(data), "msg")
    ensures IsObjectBody(data) && !Truthy(Prop(Some(data), "msg")) && Truthy(Prop(Some(data), "message")) ==>
              r == Prop(Some(data), "message")
    ensures IsObjectBody(data) && !Truthy(Prop(Some(data), "msg")) && !Truthy(Prop(Some(data), "message")) ==>
              r == Prop(Some(data), "error")
    ensures data.JStr? ==> r == Some(data)
    ensures !IsObjectBody(data) && !data.JStr? ==> r == Str("")
  {
    if IsObjectBody(data) then Or(Or(Prop(Some(data), "msg"), Prop(Some(data), "message")), Prop(Some(data), "error"))
    else if data.JStr? then Some(data)
    else Str("")
  }

  /** One of the four words that mark a token problem occurs in `s`. */
  predicate MentionsTokenProblem(s: string)
  {
    Includes(s, "expired") || Includes(s, "invalid") || Includes(s, "token") || Includes(s, "authorization")
  }

  /** `shouldAttemptRefresh(res, data)`. */
  function ShouldAttemptRefresh(status: int, data: Json, refreshToken: Option<Json>): (r: bool)
    ensures r ==> status == 401 && Truthy(refreshToken)
    ensures status == 401 && Truthy(refreshToken) ==>
              (r <==> MentionsTokenProblem(ToLower(JsString(Or(RefreshHint(data), Str(""))))))
  {
    status == 401 && Truthy(refreshToken) && MentionsTokenProblem(ToLower(JsString(Or(RefreshHint(data), Str("")))))
  }

  /** No occurrence of `pat` in `s` when `pat`'s first character is absent
      from every position at which `pat` could start, `skip` aside, and
      `pat` is known not to start at the positions in `skip`. */
  lemma AbsentWhenFirstCharAbsent(s: string, pat: string, skip: set<nat>)
    requires |pat| >= 1
    requires forall j :: 0 <= j && j + |pat| <= |s| && j !in skip ==> s[j] != pat[0]
    requires forall j :: j in skip ==> !OccursAt(s, pat, j)
    ensures !Includes(s, pat)
  {
  }

  /** The body of the server's 401 reply for a bad token. */
  const Unauthorised: Json := JObj([("status", JStr("error")), ("msg", JStr("unauthorised"))])

  /** The message the client inspects in that reply. */
  lemma UnauthorisedHint(data: Json)
    requires data == Unauthorised
    ensures ToLower(JsString(Or(RefreshHint(data), Str("")))) == "unauthorised"
  {
    var s := "unauthorised";
    assert Lookup(data.fields, "msg") == Some(JStr(s));
    assert forall i :: 0 <= i < |s| ==> LowerChar(s[i]) == s[i];
  }

  lemma UnauthorisedMentionsNoTokenProblem(s: string)
    requires s == "unauthorised"
    ensures !MentionsTokenProblem(s)
  {
    AbsentWhenFirstCharAbsent(s, "expired", {});
    AbsentWhenFirstCharAbsent(s, "invalid", {});
    assert !OccursAt(s, "token", 4) by { assert s[4..9][1] == 'h'; }
    AbsentWhenFirstCharAbsent(s, "token", {4});
    AbsentWhenFirstCharAbsent(s, "authorization", {});
  }

  /** The reply this server's middleware and `me` send for a failed or
      missing token, `{status: "error", msg: "unauthorised"}`, contains none
      of the four words: the client does not refresh on it. */
  lemma ServerUnauthorisedDoesNotTriggerRefresh(refreshToken: Option<Json>)
    ensures !ShouldAttemptRefresh(401, Unauthorised, refreshToken)
  {
    UnauthorisedHint(Unauthorised);
    UnauthorisedMentionsNoTokenProblem("unauthorised");
  }

  // ---------------------------------------------------------------------------
  // Refreshing the access token
  // ---------------------------------------------------------------------------

  datatype RefreshResult = Refreshed(access: Json) | RefreshFailed(msg: Json, data: Option<Json>)

  /** `refreshAccessToken()`. `refreshToken` is what `getRefreshToken?.()`
      returns; `post` is the POST to /auth/refresh with that token. */
  function RefreshAccessToken(refreshToken: Option<Json>, post: Json -> Response): (r: RefreshResult)
    ensures !Truthy(refreshToken) ==> r == RefreshFailed(JStr("Missing refresh token"), None)
    ensures r.Refreshed? ==> Truthy(Some(r.access)) && IsOk(post(refreshToken.value).status)
    ensures r.Refreshed? ==>
              var d := Some(post(refreshToken.value).data);
              Some(r.access) == Or(Prop(d, "access"), Prop(d, "accessToken"))
    ensures Truthy(refreshToken) && IsOk(post(refreshToken.value).status) && r.RefreshFailed? ==>
              r == RefreshFailed(JStr("Refresh succeeded but no access"), None)
    ensures r.RefreshFailed? ==> Truthy(Some(r.msg))
    ensures Truthy(refreshToken) && IsOk(post(refreshToken.value).status) ==>
              var d := Some(post(refreshToken.value).data);
              var access := Or(Prop(d, "access"), Prop(d, "accessToken"));
              Truthy(access) ==> r == Refreshed(access.value)
    ensures Truthy(refreshToken) && !IsOk(post(refreshToken.value).status) ==>
              var res := post(refreshToken.value);
              var d := Some(res.data);
              r.RefreshFailed? && r.data == d &&
              if Truthy(Prop(d, "msg")) then r.msg == Prop(d, "msg").value
              else if Truthy(Prop(d, "message")) then r.msg == Prop(d, "message").value
              else if res.data.JStr? && res.data.s != "" then r.msg == res.data
              else r.msg == JStr("Refresh failed (" + IntToString(res.status) + ")")
  {
    if !Truthy(refreshToken) then RefreshFailed(JStr("Missing refresh token"), None)
    else
      var res := post(refreshToken.value);
      var data := res.data;
      if !IsOk(res.status) then
        var fromObject := if Truthy(Some(data)) && IsObjectBody(data)
                          then Or(Prop(Some(data), "msg"), Prop(Some(data), "message")) else None;
        var fromString := if data.JStr? then Some(data) else None;
        var msg := Or(Or(fromObject, fromString), Str("Refresh failed (" + IntToString(res.status) + ")"));
        RefreshFailed(msg.value, Some(data))
      else
        var access := if IsObjectBody(data) then Or(Prop(Some(data), "access"), Prop(Some(data), "accessToken")) else None;
        if !Truthy(access) then RefreshFailed(JStr("Refresh succeeded but no access"), None)
        else Refreshed(access.value)
  }

  // ---------------------------------------------------------------------------
  // The error message of a failed response
  // ---------------------------------------------------------------------------

  datatype FetchResult = Success(data: Json) | Failure(msg: Json, details: Option<Json>)

  /** `data.msg[0]?.msg` when `data.msg` is an array (express-validator's
      shape); otherwise a falsy value. */
  function FirstItemMsg(v: Option<Json>): Option<Json>
  {
    if IsArray(v) then Prop(First(v), "msg") else None
  }

  /** `Request failed (status)` */
  function RequestFailed(status: int): Json
  {
    JStr("Request failed (" + IntToString(status) + ")")
  }

  /** The result `fetchData` gives for a response that is not ok. */
  function ErrorResult(status: int, data: Json): (r: FetchResult)
    ensures r.Failure? && Truthy(Some(r.msg))
    ensures !IsObjectBody(data) && data.JStr? && data.s != "" ==> r == Failure(data, None)
    ensures !IsObjectBody(data) && !(data.JStr? && data.s != "") ==> r == Failure(RequestFailed(status), None)
    ensures IsObjectBody(data) ==>
              var d := Some(data);
              var msg := Prop(d, "msg");
              if Truthy(FirstItemMsg(msg)) then r == Failure(FirstItemMsg(msg).value, None)
              else if Truthy(msg) then r == Failure(msg.value, None)
              else if Truthy(Prop(d, "message")) then r == Failure(Prop(d, "message").value, None)
              else if Truthy(Prop(d, "error")) then r == Failure(Prop(d, "error").value, None)
              else if Truthy(FirstItemMsg(Prop(d, "errors"))) then r == Failure(FirstItemMsg(Prop(d, "errors")).value, d)
              else if IsArray(Prop(d, "errors")) && Truthy(Prop(First(Prop(d, "errors")), "message")) then
                r == Failure(Prop(First(Prop(d, "errors")), "message").value, d)
              else r == Failure(RequestFailed(status), d)
  {
    if IsObjectBody(data) then
      var d := Some(data);
      var msg := Or(Or(Or(FirstItemMsg(Prop(d, "msg")), Prop(d, "msg")), Prop(d, "message")), Prop(d, "error"));
      if Truthy(msg) then Failure(msg.value, None)
      else
        var errors := Prop(d, "errors");
        var errorsMsg := Or(FirstItemMsg(errors), if IsArray(errors) then Prop(First(errors), "message") else None);
        if Truthy(errorsMsg) then Failure(errorsMsg.value, d)
        else Failure(RequestFailed(status), d)
    else if data.JStr? && data.s != "" then Failure(data, None)
    else Failure(RequestFailed(status), None)
  }

  /** A validator error list wins over every other field. */
  lemma ValidatorMessageFirst(status: int, first: string, rest: seq<(string, Json)>)
    requires first != ""
    ensures ErrorResult(status, JObj(rest + [("msg", JArr([JObj([("msg", JStr(first))])]))]))
         == Failure(JStr(first), None)
  {
    var fields := rest + [("msg", JArr([JObj([("msg", JStr(first))])]))];
    assert Lookup(fields, "msg") == Some(JArr([JObj([("msg", JStr(first))])]));
    assert Lookup([("msg", JStr(first))], "msg") == Some(JStr(first));
  }

  // ---------------------------------------------------------------------------
  // fetchData
  // ---------------------------------------------------------------------------

  /** What one call of `fetchData` did: its result, the requests it sent to
      the endpoint, how many refresh calls it made, and the message it passed
      to `onAuthError`, if any. */
  datatype Trace = Trace(result: FetchResult, sent: seq<Request>, refreshes: nat, authError: Option<Json>)

  /** `fetchData(endpoint, verb, body, token, didRetry)`. `send` answers
      the endpoint's requests, `post` the refresh call. */
  function FetchData(endpoint: string, verb: Option<string>, body: Option<Json>, token: Option<Json>, didRetry: bool,
                     refreshToken: Option<Json>, send: Request -> Response, post: Json -> Response): (t: Trace)
    ensures 1 <= |t.sent| <= 2 && t.refreshes <= 1
    ensures t.sent[0] == Shape(endpoint, verb, body, token)
    ensures didRetry ==> |t.sent| == 1 && t.refreshes == 0 && t.authError.None?
    ensures t.refreshes == 1 <==>
              !didRetry && ShouldAttemptRefresh(send(t.sent[0]).status, send(t.sent[0]).data, refreshToken)
    ensures |t.sent| == 2 ==>
              send(t.sent[0]).status == 401 && t.refreshes == 1 &&
              var r := RefreshAccessToken(refreshToken, post);
              r.Refreshed? && t.sent[1] == Shape(endpoint, verb, body, Some(r.access))
    ensures t.authError.Some? <==> t.refreshes == 1 && |t.sent| == 1
    ensures var last := send(t.sent[|t.sent| - 1]);
            t.result == if IsOk(last.status) then Success(last.data) else ErrorResult(last.status, last.data)
    ensures t.result.Failure? ==> Truthy(Some(t.result.msg))
    ensures t.refreshes == 1 ==> (|t.sent| == 2 <==> RefreshAccessToken(refreshToken, post).Refreshed?)
    ensures t.authError.Some? ==>
              RefreshAccessToken(refreshToken, post).RefreshFailed? &&
              t.authError.value == Or(Some(RefreshAccessToken(refreshToken, post).msg), Str("Failed to refresh token")).value &&
              t.authError.value == RefreshAccessToken(refreshToken, post).msg
    decreases if didRetry then 0 else 1
  {
    var req := Shape(endpoint, verb, body, token);
    var res := send(req);
    var refreshed := if ShouldAttemptRefresh(res.status, res.data, refreshToken) && !didRetry
                     then Some(RefreshAccessToken(refreshToken, post)) else None;
    if refreshed.Some? && refreshed.value.Refreshed? then
      var retry := FetchData(endpoint, verb, body, Some(refreshed.value.access), true, refreshToken, send, post);
      Trace(retry.result, [req] + retry.sent, 1 + retry.refreshes, retry.authError)
    else
      var authError := if refreshed.Some? then Some(Or(Some(refreshed.value.msg), Str("Failed to refresh token")).value) else None;
      var result := if !IsOk(res.status) then ErrorResult(res.status, res.data) else Success(res.data);
      Trace(result, [req], if refreshed.Some? then 1 else 0, authError)
  }
}
