/** The vendor client of `src/starhub_api.py`: a `StarHubApi` object holds the account's
    credentials and two tokens, and three calls obtain the long-lived user token (MSSO
    login), exchange it for a short-lived u-token (ESSO login) and fetch one line's data
    usage, retrying on `401 Unauthorized`.

    The network is a parameter: the object is given the responses the vendor will send, in
    order, and logs every request it sends. When the responses run out, a request raises
    `RequestException`, as a timeout or a refused connection would. Each operation is a
    function from the client's state before to its result and its state after (`Session`,
    `Outcome`), and the class's methods are proved to do what those functions say. */
module StarHubClient {
  import opened Wrappers
  import opened Python
  import Text

  /** `requests.codes.ok` and `requests.codes.unauthorized`. */
  const Ok200: int := 200
  const Unauthorized401: int := 401

  /** The requests the client sends, with the parts of their bodies and headers that vary:
      the MSSO login carries the credentials, the ESSO login the user token as `vctk3`, and
      the usage request the u-token as its `Authorization` header and the phone number in
      its URL. Fixed headers, site keys and URLs are left out. */
  datatype Request =
    | LoginRequest(userId: string, userPassword: string)
    | EssoRequest(loginId: string, vctk3: Value)
    | UsageRequest(authorization: Value, phoneNumber: string)

  /** A response: its status code, its text, and its body decoded as JSON (`None` when
      the body is not JSON, so that `res.json()` raises). */
  datatype Response = Response(statusCode: int, text: string, json: Option<Value>)

  /** What the client's calls raise. `StarHubApiException` carries the four attributes of
      the source's exception class, with the message as the corrected constructor builds
      it (see `ExceptionMessage`); `PythonError` is an exception raised while reading a
      response body. */
  datatype ApiFailure =
    | StarHubApiException(httpCode: int, apiName: string, responseBody: string, userMessage: string)
    | RequestException
    | PythonError(error: Exception)

  /** The account the object is built for. */
  datatype Account = Account(userId: string, userPassword: string)

  /** The client's state: its two tokens, the responses the vendor has yet to send, and the
      requests sent so far. */
  datatype Session = Session(userToken: Value, uToken: Value, pending: seq<Response>, sent: seq<Request>)

  /** The result of a call and the state it leaves. */
  datatype Outcome<+T> = Outcome(result: Result<T, ApiFailure>, after: Session)

  // ---------------------------------------------------------------------------------------
  // The exception message

  /** Line 23 as written: `user_message + 'HTTP Code: ' + self.http_code`, with Python's
      `+`. The status code is an integer, so the second `+` adds a string to an integer. */
  function ExceptionMessageAsWritten(userMessage: Value, httpCode: Value): Result<Value, Exception>
  {
    var prefix :- Add(userMessage, PyStr("HTTP Code: "));
    Add(prefix, httpCode)
  }

  /** Building the exception as written raises `TypeError` for every message and every
      status code: no call site can raise `StarHubApiException`. */
  lemma ExceptionMessageAsWrittenRaises(userMessage: string, httpCode: int)
    ensures ExceptionMessageAsWritten(PyStr(userMessage), PyInt(httpCode)) == Err(TypeError)
  {
    assert Add(PyStr(userMessage), PyStr("HTTP Code: ")) == Ok(PyStr(userMessage + "HTTP Code: "));
  }

  /** The message the constructor evidently means: the user message, `HTTP Code: ` and the
      status code in decimal. */
  function ExceptionMessage(userMessage: string, httpCode: int): (m: string)
    ensures |m| > |userMessage| + 11
    ensures m[..|userMessage|] == userMessage
    ensures m[|userMessage|..|userMessage| + 11] == "HTTP Code: "
    ensures httpCode >= 0 ==> AllDigits(m[|userMessage| + 11..])
  {
    userMessage + "HTTP Code: " + Text.IntDecimal(httpCode)
  }

  /** The status code can be read back from the corrected message: `float` of the text
      after `HTTP Code: ` is the code. */
  lemma ExceptionMessageCode(userMessage: string, httpCode: int)
    ensures ParseFloat(ExceptionMessage(userMessage, httpCode)[|userMessage| + 11..]) == Some(httpCode as real)
  {
    var m := ExceptionMessage(userMessage, httpCode);
    assert m[|userMessage| + 11..] == Text.IntDecimal(httpCode);
    ParseFloatIntDecimal(httpCode);
  }

  /** `StarHubApiException(http_code, api_name, response_body, user_message)`, corrected. */
  function ApiException(httpCode: int, apiName: string, responseBody: string, userMessage: string): (e: ApiFailure)
    ensures e.StarHubApiException? && e.httpCode == httpCode && e.apiName == apiName
    ensures e.responseBody == responseBody
    ensures |e.userMessage| > |userMessage| && e.userMessage[..|userMessage|] == userMessage
  {
    StarHubApiException(httpCode, apiName, responseBody, ExceptionMessage(userMessage, httpCode))
  }

  // ---------------------------------------------------------------------------------------
  // The operations as functions of the state

  /** Sending one request: the next scripted response, or `RequestException` when there is
      none. The request is logged either way. */
  function Exchange(s: Session, req: Request): (o: Outcome<Response>)
    ensures o.after.sent == s.sent + [req]
    ensures o.after.userToken == s.userToken && o.after.uToken == s.uToken
    ensures s.pending == [] ==> o == Outcome(Err(RequestException), s.(sent := s.sent + [req]))
    ensures s.pending != [] ==> o.result == Ok(s.pending[0]) && o.after.pending == s.pending[1..]
  {
    if s.pending == [] then Outcome(Err(RequestException), s.(sent := s.sent + [req]))
    else Outcome(Ok(s.pending[0]), s.(pending := s.pending[1..], sent := s.sent + [req]))
  }

  /** An exception raised while reading a body, as the client's failure. */
  function Lift<T>(r: Result<T, Exception>): (l: Result<T, ApiFailure>)
    ensures r.Ok? ==> l == Ok(r.value)
    ensures r.Err? ==> l == Err(PythonError(r.error))
  {
    match r
    case Ok(v) => Ok(v)
    case Err(e) => Err(PythonError(e))
  }

  /** `res.json()`: a body that is not JSON raises `JSONDecodeError`, a `ValueError`. */
  function Json(res: Response): Result<Value, ApiFailure>
  {
    match res.json
    case Some(v) => Ok(v)
    case None => Err(PythonError(ValueError))
  }

  /** `res_json.get('user_token', None)`: `None` when the key is absent; only a dictionary
      has `get`. */
  function LoginToken(res: Response): (r: Result<Value, ApiFailure>)
    ensures res.json.Some? && res.json.value.PyDict? && "user_token" in res.json.value.entries
            ==> r == Ok(res.json.value.entries["user_token"])
    ensures res.json.Some? && res.json.value.PyDict? && "user_token" !in res.json.value.entries
            ==> r == Ok(PyNone)
  {
    var body :- Json(res);
    if body.PyDict? then
      Ok(if "user_token" in body.entries then body.entries["user_token"] else PyNone)
    else
      Err(PythonError(AttributeError))
  }

  /** `res_json['userDetails']['utoken']`. */
  function EssoToken(res: Response): (r: Result<Value, ApiFailure>)
    ensures res.json.None? ==> r == Err(PythonError(ValueError))
    ensures res.json.Some? && !res.json.value.PyDict? ==> r == Err(PythonError(TypeError))
    ensures r.Ok? <==> res.json.Some? && GetItem(res.json.value, "userDetails").Ok?
                       && GetItem(GetItem(res.json.value, "userDetails").value, "utoken").Ok?
    ensures r.Ok? ==> r.value == res.json.value.entries["userDetails"].entries["utoken"]
  {
    var body :- Json(res);
    var details :- Lift(GetItem(body, "userDetails"));
    Lift(GetItem(details, "utoken"))
  }

  /** `res_json['mainContext']['present']['any'][0]['dataUsages']['usageDetail'][0]`. */
  function UsageDetail(res: Response): (r: Result<Value, ApiFailure>)
    ensures res.json.None? ==> r == Err(PythonError(ValueError))
    ensures res.json.Some? && !res.json.value.PyDict? ==> r == Err(PythonError(TypeError))
    ensures res.json.Some? && res.json.value.PyDict? && "mainContext" !in res.json.value.entries
            ==> r == Err(PythonError(KeyError("mainContext")))
  {
    var body :- Json(res);
    var context :- Lift(GetItem(body, "mainContext"));
    var present :- Lift(GetItem(context, "present"));
    var lines :- Lift(GetItem(present, "any"));
    var line :- Lift(FirstItem(lines));
    var usages :- Lift(GetItem(line, "dataUsages"));
    var details :- Lift(GetItem(usages, "usageDetail"));
    Lift(FirstItem(details))
  }

  /** `get_user_token`: the cached token when it is truthy; otherwise one MSSO login, whose
      token (possibly `None`) is stored and returned on `200`, and whose other statuses
      raise `StarHubApiException` for `MSSO/MAPP/LOGIN`. */
  function UserToken(a: Account, s: Session): (o: Outcome<Value>)
    ensures Truthy(s.userToken) ==> o == Outcome(Ok(s.userToken), s)
    ensures !Truthy(s.userToken) ==> o.after.sent == s.sent + [LoginRequest(a.userId, a.userPassword)]
    ensures !Truthy(s.userToken) && s.pending != [] ==> o.after.pending == s.pending[1..]
    ensures !Truthy(s.userToken) && s.pending == [] ==> o.result == Err(RequestException)
    ensures !Truthy(s.userToken) && s.pending != [] && s.pending[0].statusCode == Ok200
            ==> o.result == LoginToken(s.pending[0])
    ensures !Truthy(s.userToken) && s.pending != [] && s.pending[0].statusCode != Ok200
            ==> o.result == Err(ApiException(s.pending[0].statusCode, "MSSO/MAPP/LOGIN", s.pending[0].text,
                                             "User token request failed"))
    ensures o.result.Ok? ==> o.after.userToken == o.result.value
    ensures o.result.Err? ==> o.after.userToken == s.userToken
    ensures o.after.uToken == s.uToken
  {
    if Truthy(s.userToken) then Outcome(Ok(s.userToken), s)
    else
      var x := Exchange(s, LoginRequest(a.userId, a.userPassword));
      match x.result
      case Err(e) => Outcome(Err(e), x.after)
      case Ok(res) =>
        if res.statusCode == Ok200 then
          match LoginToken(res)
          case Ok(token) => Outcome(Ok(token), x.after.(userToken := token))
          case Err(e) => Outcome(Err(e), x.after)
        else
          Outcome(Err(ApiException(res.statusCode, "MSSO/MAPP/LOGIN", res.text, "User token request failed")), x.after)
  }

  /** The responses still to come after a call are a suffix of those before it. */
  predicate Consumes(s: Session, t: Session)
  {
    s.sent <= t.sent && |t.pending| <= |s.pending| && t.pending == s.pending[|s.pending| - |t.pending|..]
  }

  lemma UserTokenConsumes(a: Account, s: Session)
    ensures Consumes(s, UserToken(a, s).after)
  {
  }

  lemma ConsumesTransitive(s: Session, t: Session, u: Session)
    requires Consumes(s, t) && Consumes(t, u)
    ensures Consumes(s, u)
  {
    assert u.pending == s.pending[|s.pending| - |t.pending|..][|t.pending| - |u.pending|..];
  }

  /** `get_utoken(user_token)`: one ESSO login with `user_token`. On `200` the u-token is
      stored and returned; on `401` the user token is fetched again (from the cache when
      it is truthy) and the call starts over; any other status raises
      `StarHubApiException` for `FAPI/LOGIN/ESSO`. The retries have no bound in the
      source; here they end when the scripted responses do. */
  function UToken(a: Account, s: Session, userToken: Value): (o: Outcome<Value>)
    ensures |o.after.pending| <= |s.pending|
    decreases |s.pending|
  {
    var x := Exchange(s, EssoRequest(a.userId, userToken));
    match x.result
    case Err(e) => Outcome(Err(e), x.after)
    case Ok(res) =>
      if res.statusCode == Ok200 then
        match EssoToken(res)
        case Ok(token) => Outcome(Ok(token), x.after.(uToken := token))
        case Err(e) => Outcome(Err(e), x.after)
      else if res.statusCode == Unauthorized401 then
        var l := UserToken(a, x.after);
        match l.result
        case Err(e) => Outcome(Err(e), l.after)
        case Ok(token) => UToken(a, l.after, token)
      else
        Outcome(Err(ApiException(res.statusCode, "FAPI/LOGIN/ESSO", res.text, "UToken request failed")), x.after)
  }

  /** `get_phone_data_usage(utoken, phone_number)`: one usage request with `utoken`. On
      `200` the result is the first usage detail of the body; on `401` a new u-token is
      obtained from a freshly fetched user token and the call starts over with it; any
      other status raises `StarHubApiException` for `FAPI/USAGE/DATA`. */
  function PhoneDataUsage(a: Account, s: Session, utoken: Value, phoneNumber: string): (o: Outcome<Value>)
    ensures |o.after.pending| <= |s.pending|
    ensures s.pending == [] ==> o == Outcome(Err(RequestException), s.(sent := s.sent + [UsageRequest(utoken, phoneNumber)]))
    ensures s.pending != [] && s.pending[0].statusCode == Ok200 ==>
      o == Outcome(UsageDetail(s.pending[0]),
                   s.(pending := s.pending[1..], sent := s.sent + [UsageRequest(utoken, phoneNumber)]))
    ensures s.pending != [] && s.pending[0].statusCode != Ok200 && s.pending[0].statusCode != Unauthorized401 ==>
      o == Outcome(Err(ApiException(s.pending[0].statusCode, "FAPI/USAGE/DATA", s.pending[0].text, "Data usage request failed")),
                   s.(pending := s.pending[1..], sent := s.sent + [UsageRequest(utoken, phoneNumber)]))
    decreases |s.pending|
  {
    var x := Exchange(s, UsageRequest(utoken, phoneNumber));
    match x.result
    case Err(e) => Outcome(Err(e), x.after)
    case Ok(res) =>
      if res.statusCode == Ok200 then
        Outcome(UsageDetail(res), x.after)
      else if res.statusCode == Unauthorized401 then
        var l := UserToken(a, x.after);
        match l.result
        case Err(e) => Outcome(Err(e), l.after)
        case Ok(userToken) =>
          var u := UToken(a, l.after, userToken);
          match u.result
          case Err(e) => Outcome(Err(e), u.after)
          case Ok(newUToken) => PhoneDataUsage(a, u.after, newUToken, phoneNumber)
      else
        Outcome(Err(ApiException(res.statusCode, "FAPI/USAGE/DATA", res.text, "Data usage request failed")), x.after)
  }

  // ---------------------------------------------------------------------------------------
  // What the retries do

  /** The call `get_utoken` makes after a `401`, when fetching the user token succeeded. */
  lemma UTokenRetryStep(a: Account, s: Session, userToken: Value)
    requires s.pending != [] && s.pending[0].statusCode == Unauthorized401
    requires UserToken(a, Exchange(s, EssoRequest(a.userId, userToken)).after).result.Ok?
    ensures var l := UserToken(a, Exchange(s, EssoRequest(a.userId, userToken)).after);
      UToken(a, s, userToken) == UToken(a, l.after, l.result.value)
  {
  }

  /** Where a `401` leaves `get_utoken`: failing to fetch the user token ends the call in
      the state the failure left, and otherwise the call starts over with the fetched
      token. */
  lemma UTokenAfter401(a: Account, s: Session, userToken: Value)
    requires s.pending != [] && s.pending[0].statusCode == Unauthorized401
    ensures var o := UToken(a, s, userToken);
            var l := UserToken(a, Exchange(s, EssoRequest(a.userId, userToken)).after);
      && (l.result.Err? ==> o == Outcome(Err(l.result.error), l.after))
      && (l.result.Ok? ==> o == UToken(a, l.after, l.result.value))
  {
  }

  /** `get_utoken` sends its ESSO login with the token it was given first and only ever
      consumes responses. */
  lemma {:induction false} UTokenConsumes(a: Account, s: Session, userToken: Value)
    ensures var o := UToken(a, s, userToken);
      && Consumes(s, o.after)
      && s.sent + [EssoRequest(a.userId, userToken)] <= o.after.sent
    decreases |s.pending|, 1
  {
    if s.pending != [] && s.pending[0].statusCode == Unauthorized401 {
      UTokenConsumesRetry(a, s, userToken);
    } else {
      UTokenConsumesAnswered(a, s, userToken);
    }
  }

  /** `UTokenConsumes` when no `401` comes back: the call ends after one exchange. */
  lemma UTokenConsumesAnswered(a: Account, s: Session, userToken: Value)
    requires !(s.pending != [] && s.pending[0].statusCode == Unauthorized401)
    ensures var o := UToken(a, s, userToken);
      && Consumes(s, o.after)
      && s.sent + [EssoRequest(a.userId, userToken)] <= o.after.sent
  {
    var x := Exchange(s, EssoRequest(a.userId, userToken));
    assert Consumes(s, x.after);
  }

  /** `UTokenConsumes` after a `401`. */
  lemma {:induction false} UTokenConsumesRetry(a: Account, s: Session, userToken: Value)
    requires s.pending != [] && s.pending[0].statusCode == Unauthorized401
    ensures var o := UToken(a, s, userToken);
      && Consumes(s, o.after)
      && s.sent + [EssoRequest(a.userId, userToken)] <= o.after.sent
    decreases |s.pending|, 0
  {
    var x := Exchange(s, EssoRequest(a.userId, userToken));
    assert Consumes(s, x.after);
    var l := UserToken(a, x.after);
    UTokenAfter401(a, s, userToken);
    UserTokenConsumes(a, x.after);
    ConsumesTransitive(s, x.after, l.after);
    if l.result.Ok? {
      var o := UToken(a, l.after, l.result.value);
      UTokenConsumes(a, l.after, l.result.value);
      ConsumesTransitive(s, l.after, o.after);
      ConsumesTransitive(x.after, l.after, o.after);
    }
  }

  /** `get_utoken` sets the u-token exactly when it succeeds, and never replaces a truthy
      user token. */
  lemma {:induction false} UTokenTokens(a: Account, s: Session, userToken: Value)
    ensures var o := UToken(a, s, userToken);
      && (o.result.Ok? ==> o.after.uToken == o.result.value)
      && (o.result.Err? ==> o.after.uToken == s.uToken)
      && (Truthy(s.userToken) ==> o.after.userToken == s.userToken)
    decreases |s.pending|
  {
    var x := Exchange(s, EssoRequest(a.userId, userToken));
    if s.pending != [] && s.pending[0].statusCode == Unauthorized401 {
      var l := UserToken(a, x.after);
      if l.result.Ok? {
        UTokenRetryStep(a, s, userToken);
        UTokenTokens(a, l.after, l.result.value);
      }
    }
  }

  /** The number of `401` responses at the head of `rs`. */
  function Leading401s(rs: seq<Response>): (k: nat)
    ensures k <= |rs|
    ensures forall i :: 0 <= i < k ==> rs[i].statusCode == Unauthorized401
    ensures k < |rs| ==> rs[k].statusCode != Unauthorized401
  {
    if rs == [] || rs[0].statusCode != Unauthorized401 then 0 else 1 + Leading401s(rs[1..])
  }

  /** After a `401` with a cached user token, `get_utoken` starts over with that token. */
  lemma UTokenAfter401Cached(a: Account, s: Session, userToken: Value)
    requires Truthy(s.userToken)
    requires s.pending != [] && s.pending[0].statusCode == Unauthorized401
    ensures UToken(a, s, userToken) == UToken(a, Exchange(s, EssoRequest(a.userId, userToken)).after, s.userToken)
  {
    var x := Exchange(s, EssoRequest(a.userId, userToken));
    assert UserToken(a, x.after) == Outcome(Ok(s.userToken), x.after);
  }

  /** With a cached user token, `get_utoken` retries once per leading `401`, re-sending
      the cached token each time: it sends one request more than there are leading
      `401`s, and the first other response, or the end of the responses, decides the
      result. */
  lemma {:induction false} UTokenRetries(a: Account, s: Session, userToken: Value)
    requires Truthy(s.userToken)
    ensures var o := UToken(a, s, userToken);
            var k := Leading401s(s.pending);
      && o.after.sent == s.sent + [EssoRequest(a.userId, userToken)] + seq(k, _ => EssoRequest(a.userId, s.userToken))
      && o.after.pending == (if k < |s.pending| then s.pending[k + 1..] else [])
      && o.after.userToken == s.userToken
      && (k == |s.pending| ==> o.result == Err(RequestException))
      && (k < |s.pending| && s.pending[k].statusCode == Ok200 ==> o.result == EssoToken(s.pending[k]))
      && (k < |s.pending| && s.pending[k].statusCode != Ok200 ==>
            o.result == Err(ApiException(s.pending[k].statusCode, "FAPI/LOGIN/ESSO", s.pending[k].text, "UToken request failed")))
  {
    UTokenRetriesTrace(a, s, userToken);
    UTokenRetriesResult(a, s, userToken);
  }

  /** The requests and the remaining script of `UTokenRetries`. */
  lemma {:induction false} UTokenRetriesTrace(a: Account, s: Session, userToken: Value)
    requires Truthy(s.userToken)
    ensures var o := UToken(a, s, userToken);
            var k := Leading401s(s.pending);
      && o.after.sent == s.sent + [EssoRequest(a.userId, userToken)] + seq(k, _ => EssoRequest(a.userId, s.userToken))
      && o.after.pending == (if k < |s.pending| then s.pending[k + 1..] else [])
      && o.after.userToken == s.userToken
    decreases |s.pending|
  {
    var k := Leading401s(s.pending);
    var retry := EssoRequest(a.userId, s.userToken);
    if s.pending != [] && s.pending[0].statusCode == Unauthorized401 {
      var x := Exchange(s, EssoRequest(a.userId, userToken));
      UTokenAfter401Cached(a, s, userToken);
      UTokenRetriesTrace(a, x.after, s.userToken);
      RetryTraceStep(s, x.after, UToken(a, x.after, s.userToken).after, EssoRequest(a.userId, userToken), retry);
    } else {
      assert seq(k, _ => retry) == [];
    }
  }

  /** One more leading `401` adds one retry to the requests sent and one refusal to the
      responses consumed. */
  lemma RetryTraceStep(s: Session, x: Session, o: Session, first: Request, retry: Request)
    requires s.pending != [] && s.pending[0].statusCode == Unauthorized401
    requires x.sent == s.sent + [first] && x.pending == s.pending[1..]
    requires var k := Leading401s(x.pending);
      && o.sent == x.sent + [retry] + seq(k, _ => retry)
      && o.pending == (if k < |x.pending| then x.pending[k + 1..] else [])
    ensures var k := Leading401s(s.pending);
      && o.sent == s.sent + [first] + seq(k, _ => retry)
      && o.pending == (if k < |s.pending| then s.pending[k + 1..] else [])
  {
    var k := Leading401s(s.pending);
    assert Leading401s(x.pending) == k - 1;
    var later := seq(k - 1, _ => retry);
    assert [retry] + later == seq(k, _ => retry);
    assert x.sent + [retry] + later == s.sent + [first] + ([retry] + later);
    if k < |s.pending| {
      assert x.pending[k - 1 + 1..] == s.pending[k + 1..];
    }
  }

  /** The result of `UTokenRetries`. */
  lemma {:induction false} UTokenRetriesResult(a: Account, s: Session, userToken: Value)
    requires Truthy(s.userToken)
    ensures var o := UToken(a, s, userToken);
            var k := Leading401s(s.pending);
      && (k == |s.pending| ==> o.result == Err(RequestException))
      && (k < |s.pending| && s.pending[k].statusCode == Ok200 ==> o.result == EssoToken(s.pending[k]))
      && (k < |s.pending| && s.pending[k].statusCode != Ok200 ==>
            o.result == Err(ApiException(s.pending[k].statusCode, "FAPI/LOGIN/ESSO", s.pending[k].text, "UToken request failed")))
    decreases |s.pending|
  {
    var k := Leading401s(s.pending);
    if s.pending != [] && s.pending[0].statusCode == Unauthorized401 {
      var x := Exchange(s, EssoRequest(a.userId, userToken));
      UTokenAfter401Cached(a, s, userToken);
      UTokenRetriesResult(a, x.after, s.userToken);
      assert Leading401s(x.after.pending) == k - 1;
      if k < |s.pending| {
        assert x.after.pending[k - 1] == s.pending[k];
      }
    }
  }

  /** The call `get_phone_data_usage` makes after a `401`, when fetching both tokens
      succeeded. */
  lemma PhoneDataUsageRetryStep(a: Account, s: Session, utoken: Value, phoneNumber: string)
    requires s.pending != [] && s.pending[0].statusCode == Unauthorized401
    requires UserToken(a, Exchange(s, UsageRequest(utoken, phoneNumber)).after).result.Ok?
    requires var l := UserToken(a, Exchange(s, UsageRequest(utoken, phoneNumber)).after);
      UToken(a, l.after, l.result.value).result.Ok?
    ensures var l := UserToken(a, Exchange(s, UsageRequest(utoken, phoneNumber)).after);
            var u := UToken(a, l.after, l.result.value);
      PhoneDataUsage(a, s, utoken, phoneNumber) == PhoneDataUsage(a, u.after, u.result.value, phoneNumber)
  {
  }

  /** Where a `401` leaves `get_phone_data_usage`: failing to fetch the user token or the
      u-token ends the call in the state the failure left, and otherwise the call starts
      over with the new u-token. */
  lemma PhoneDataUsageAfter401(a: Account, s: Session, utoken: Value, phoneNumber: string)
    requires s.pending != [] && s.pending[0].statusCode == Unauthorized401
    ensures var o := PhoneDataUsage(a, s, utoken, phoneNumber);
            var l := UserToken(a, Exchange(s, UsageRequest(utoken, phoneNumber)).after);
      && (l.result.Err? ==> o == Outcome(Err(l.result.error), l.after))
      && (l.result.Ok? ==>
            var u := UToken(a, l.after, l.result.value);
            && (u.result.Err? ==> o == Outcome(Err(u.result.error), u.after))
            && (u.result.Ok? ==> o == PhoneDataUsage(a, u.after, u.result.value, phoneNumber)))
  {
  }

  /** `get_phone_data_usage` sends its usage request with the u-token it was given first
      and only ever consumes responses. */
  lemma {:induction false} PhoneDataUsageConsumes(a: Account, s: Session, utoken: Value, phoneNumber: string)
    ensures var o := PhoneDataUsage(a, s, utoken, phoneNumber);
      && Consumes(s, o.after)
      && s.sent + [UsageRequest(utoken, phoneNumber)] <= o.after.sent
    decreases |s.pending|, 2
  {
    if s.pending != [] && s.pending[0].statusCode == Unauthorized401 {
      PhoneDataUsageConsumesRetry(a, s, utoken, phoneNumber);
    } else {
      PhoneDataUsageConsumesAnswered(a, s, utoken, phoneNumber);
    }
  }

  lemma PhoneDataUsageConsumesAnswered(a: Account, s: Session, utoken: Value, phoneNumber: string)
    requires s.pending == [] || s.pending[0].statusCode != Unauthorized401
    ensures var o := PhoneDataUsage(a, s, utoken, phoneNumber);
      && Consumes(s, o.after)
      && s.sent + [UsageRequest(utoken, phoneNumber)] <= o.after.sent
  {
  }

  lemma {:induction false} PhoneDataUsageConsumesRetry(a: Account, s: Session, utoken: Value, phoneNumber: string)
    requires s.pending != [] && s.pending[0].statusCode == Unauthorized401
    ensures var o := PhoneDataUsage(a, s, utoken, phoneNumber);
      && Consumes(s, o.after)
      && s.sent + [UsageRequest(utoken, phoneNumber)] <= o.after.sent
    decreases |s.pending|, 1
  {
    var x := Exchange(s, UsageRequest(utoken, phoneNumber));
    var l := UserToken(a, x.after);
    PhoneDataUsageAfter401(a, s, utoken, phoneNumber);
    UserTokenConsumes(a, x.after);
    ConsumesTransitive(s, x.after, l.after);
    if l.result.Ok? {
      var u := UToken(a, l.after, l.result.value);
      UTokenConsumes(a, l.after, l.result.value);
      ConsumesTransitive(s, l.after, u.after);
      if u.result.Ok? {
        PhoneDataUsageConsumesAfterTokens(a, s, utoken, phoneNumber, u.after, u.result.value);
      }
    }
  }

  /** The case of a `401` where both tokens were fetched again: the call that starts over
      also only consumes. */
  lemma {:induction false} PhoneDataUsageConsumesAfterTokens(a: Account, s: Session, utoken: Value, phoneNumber: string,
                                                              t: Session, newUToken: Value)
    requires s.pending != [] && s.pending[0].statusCode == Unauthorized401
    requires Consumes(s, t) && s.sent + [UsageRequest(utoken, phoneNumber)] <= t.sent && |t.pending| < |s.pending|
    requires PhoneDataUsage(a, s, utoken, phoneNumber) == PhoneDataUsage(a, t, newUToken, phoneNumber)
    ensures var o := PhoneDataUsage(a, s, utoken, phoneNumber);
      && Consumes(s, o.after)
      && s.sent + [UsageRequest(utoken, phoneNumber)] <= o.after.sent
    decreases |s.pending|, 0
  {
    var o := PhoneDataUsage(a, t, newUToken, phoneNumber);
    PhoneDataUsageConsumes(a, t, newUToken, phoneNumber);
    ConsumesTransitive(s, t, o.after);
  }

  /** `get_phone_data_usage` never replaces a truthy user token; when it succeeds after a
      `401`, its last request carried the u-token the client now holds, and when it
      succeeds at once, the u-token is as it was. */
  lemma {:induction false} PhoneDataUsageTokens(a: Account, s: Session, utoken: Value, phoneNumber: string)
    ensures var o := PhoneDataUsage(a, s, utoken, phoneNumber);
      && (Truthy(s.userToken) ==> o.after.userToken == s.userToken)
      && (o.result.Ok? ==> s.pending != [] && (s.pending[0].statusCode == Ok200 || s.pending[0].statusCode == Unauthorized401))
      && (o.result.Ok? && s.pending[0].statusCode == Ok200 ==>
            o.after.uToken == s.uToken && o.after.sent == s.sent + [UsageRequest(utoken, phoneNumber)])
      && (o.result.Ok? && s.pending[0].statusCode == Unauthorized401 ==>
            o.after.sent != [] && o.after.sent[|o.after.sent| - 1] == UsageRequest(o.after.uToken, phoneNumber))
    decreases |s.pending|, 1
  {
    var x := Exchange(s, UsageRequest(utoken, phoneNumber));
    if s.pending != [] && s.pending[0].statusCode == Unauthorized401 {
      PhoneDataUsageAfter401(a, s, utoken, phoneNumber);
      var l := UserToken(a, x.after);
      if l.result.Ok? {
        var u := UToken(a, l.after, l.result.value);
        UTokenTokens(a, l.after, l.result.value);
        UTokenConsumes(a, l.after, l.result.value);
        if u.result.Ok? {
          PhoneDataUsageTokens(a, u.after, u.result.value, phoneNumber);
          PhoneDataUsageLastRequest(a, u.after, u.result.value, phoneNumber);
        }
      }
    }
  }

  /** Once the client holds the u-token it sends, a successful `get_phone_data_usage` ends
      with a request carrying the u-token the client then holds. */
  lemma {:induction false} PhoneDataUsageLastRequest(a: Account, t: Session, utoken: Value, phoneNumber: string)
    requires t.uToken == utoken
    ensures var o := PhoneDataUsage(a, t, utoken, phoneNumber);
      o.result.Ok? ==> o.after.sent != [] && o.after.sent[|o.after.sent| - 1] == UsageRequest(o.after.uToken, phoneNumber)
    decreases |t.pending|, 2
  {
    PhoneDataUsageTokens(a, t, utoken, phoneNumber);
    if t.pending != [] && t.pending[0].statusCode == Ok200 {
      var r := UsageRequest(utoken, phoneNumber);
      assert (t.sent + [r])[|t.sent + [r]| - 1] == r;
    }
  }

  // ---------------------------------------------------------------------------------------
  // The client object

  /** `StarHubApi`, given the responses the vendor will send. */
  class StarHubApi {
    const userId: string
    const userPassword: string
    var userToken: Value
    var uToken: Value
    var pending: seq<Response>
    var sent: seq<Request>

    function Credentials(): Account
    {
      Account(userId, userPassword)
    }

    function State(): Session
      reads this
    {
      Session(userToken, uToken, pending, sent)
    }

    /** `StarHubApi(user_id, user_password)`: no token yet. */
    constructor(userId: string, userPassword: string, responses: seq<Response>)
      ensures Credentials() == Account(userId, userPassword)
      ensures State() == Session(PyNone, PyNone, responses, [])
    {
      this.userId := userId;
      this.userPassword := userPassword;
      userToken := PyNone;
      uToken := PyNone;
      pending := responses;
      sent := [];
    }

    /** `requests.post` or `requests.get`. */
    method Send(req: Request) returns (r: Result<Response, ApiFailure>)
      modifies this
      ensures Outcome(r, State()) == Exchange(old(State()), req)
    {
      sent := sent + [req];
      if pending == [] {
        return Err(RequestException);
      }
      r := Ok(pending[0]);
      pending := pending[1..];
    }

    /** `get_user_token`. */
    method GetUserToken() returns (r: Result<Value, ApiFailure>)
      modifies this
      ensures Outcome(r, State()) == UserToken(Credentials(), old(State()))
    {
      if Truthy(userToken) {
        return Ok(userToken);
      }
      var res :- Send(LoginRequest(userId, userPassword));
      if res.statusCode == Ok200 {
        var token :- LoginToken(res);
        userToken := token;
        return Ok(token);
      }
      return Err(ApiException(res.statusCode, "MSSO/MAPP/LOGIN", res.text, "User token request failed"));
    }

    /** `get_utoken`. */
    method GetUToken(token: Value) returns (r: Result<Value, ApiFailure>)
      modifies this
      ensures Outcome(r, State()) == UToken(Credentials(), old(State()), token)
      decreases |pending|
    {
      var res :- Send(EssoRequest(userId, token));
      if res.statusCode == Ok200 {
        var newUToken :- EssoToken(res);
        uToken := newUToken;
        return Ok(newUToken);
      }
      if res.statusCode != Ok200 && res.statusCode == Unauthorized401 {
        var cached :- GetUserToken();
        r := GetUToken(cached);
        return;
      }
      return Err(ApiException(res.statusCode, "FAPI/LOGIN/ESSO", res.text, "UToken request failed"));
    }

    /** `get_phone_data_usage`. */
    method GetPhoneDataUsage(utoken: Value, phoneNumber: string) returns (r: Result<Value, ApiFailure>)
      modifies this
      ensures Outcome(r, State()) == PhoneDataUsage(Credentials(), old(State()), utoken, phoneNumber)
      decreases |pending|
    {
      var res :- Send(UsageRequest(utoken, phoneNumber));
      if res.statusCode == Ok200 {
        return UsageDetail(res);
      }
      if res.statusCode != Ok200 && res.statusCode == Unauthorized401 {
        var cached :- GetUserToken();
        var newUToken :- GetUToken(cached);
        r := GetPhoneDataUsage(newUToken, phoneNumber);
        return;
      }
      return Err(ApiException(res.statusCode, "FAPI/USAGE/DATA", res.text, "Data usage request failed"));
    }
  }

  // ---------------------------------------------------------------------------------------
  // A session with the vendor

  /** A login answer carrying `userToken`, read back by `get('user_token')`. */
  function LoginBody(userToken: string): (v: Value)
    ensures LoginToken(Response(200, "", Some(v))) == Ok(PyStr(userToken))
  {
    PyDict(map["user_token" := PyStr(userToken)])
  }

  /** An ESSO answer carrying `uToken`, read back by `['userDetails']['utoken']`. */
  function EssoBody(uToken: string): (v: Value)
    ensures EssoToken(Response(200, "", Some(v))) == Ok(PyStr(uToken))
  {
    PyDict(map["userDetails" := PyDict(map["utoken" := PyStr(uToken)])])
  }

  function UsageBody(detail: Value): Value
  {
    var line := PyDict(map["dataUsages" := PyDict(map["usageDetail" := PyList([detail])])]);
    PyDict(map["mainContext" := PyDict(map["present" := PyDict(map["any" := PyList([line])])])])
  }

  /** The vendor's answers when the first u-token is revoked before the usage request. */
  function RevokedScript(detail: Value): seq<Response>
  {
    [Response(200, "", Some(LoginBody("T"))),
     Response(200, "", Some(EssoBody("U1"))),
     Response(401, "", None),
     Response(200, "", Some(EssoBody("U2"))),
     Response(200, "", Some(UsageBody(detail)))]
  }

  const Customer: Account := Account("user", "secret")
  const Login: Request := LoginRequest("user", "secret")
  const Esso: Request := EssoRequest("user", PyStr("T"))
  const FirstUsage: Request := UsageRequest(PyStr("U1"), "91234567")
  const SecondUsage: Request := UsageRequest(PyStr("U2"), "91234567")

  /** The login and the first exchange of that session. */
  lemma RevokedSessionTokens(detail: Value)
    ensures var rs := RevokedScript(detail);
      && UserToken(Customer, Session(PyNone, PyNone, rs, []))
         == Outcome(Ok(PyStr("T")), Session(PyStr("T"), PyNone, rs[1..], [Login]))
      && UToken(Customer, Session(PyStr("T"), PyNone, rs[1..], [Login]), PyStr("T"))
         == Outcome(Ok(PyStr("U1")), Session(PyStr("T"), PyStr("U1"), rs[2..], [Login, Esso]))
  {
    var rs := RevokedScript(detail);
    assert LoginToken(rs[0]) == Ok(PyStr("T"));
    assert EssoToken(rs[1]) == Ok(PyStr("U1"));
  }

  /** After the refused usage request, the cached user token is exchanged for a second
      u-token without a new login. */
  lemma RevokedSessionReissue(detail: Value)
    ensures var rs := RevokedScript(detail);
            var s3 := Session(PyStr("T"), PyStr("U1"), rs[3..], [Login, Esso, FirstUsage]);
      && UserToken(Customer, s3) == Outcome(Ok(PyStr("T")), s3)
      && UToken(Customer, s3, PyStr("T"))
         == Outcome(Ok(PyStr("U2")), Session(PyStr("T"), PyStr("U2"), rs[4..], [Login, Esso, FirstUsage, Esso]))
  {
    var rs := RevokedScript(detail);
    assert rs[3..] == [rs[3], rs[4]];
    assert EssoToken(rs[3]) == Ok(PyStr("U2"));
  }

  /** The repeated usage request with the second u-token returns the usage detail. */
  lemma RevokedSessionRepeat(detail: Value)
    ensures var rs := RevokedScript(detail);
      PhoneDataUsage(Customer, Session(PyStr("T"), PyStr("U2"), rs[4..], [Login, Esso, FirstUsage, Esso]), PyStr("U2"), "91234567")
      == Outcome(Ok(detail), Session(PyStr("T"), PyStr("U2"), [], [Login, Esso, FirstUsage, Esso, SecondUsage]))
  {
    var rs := RevokedScript(detail);
    assert rs[4..] == [rs[4]];
    UsageBodyDetail(detail);
  }

  /** A usage body built around `detail` yields `detail` as its first usage detail. */
  lemma UsageBodyDetail(detail: Value)
    ensures UsageDetail(Response(200, "", Some(UsageBody(detail)))) == Ok(detail)
  {
    var line := PyDict(map["dataUsages" := PyDict(map["usageDetail" := PyList([detail])])]);
    var present := PyDict(map["any" := PyList([line])]);
    var context := PyDict(map["present" := present]);
    assert GetItem(UsageBody(detail), "mainContext") == Ok(context);
    assert GetItem(context, "present") == Ok(present);
    assert GetItem(present, "any") == Ok(PyList([line]));
    assert FirstItem(PyList([line])) == Ok(line);
    assert GetItem(line, "dataUsages") == Ok(PyDict(map["usageDetail" := PyList([detail])]));
    assert FirstItem(PyList([detail])) == Ok(detail);
  }

  /** The refused usage request, the second exchange and the repeated usage request. */
  lemma RevokedSessionUsage(detail: Value)
    ensures var rs := RevokedScript(detail);
      PhoneDataUsage(Customer, Session(PyStr("T"), PyStr("U1"), rs[2..], [Login, Esso]), PyStr("U1"), "91234567")
      == Outcome(Ok(detail), Session(PyStr("T"), PyStr("U2"), [], [Login, Esso, FirstUsage, Esso, SecondUsage]))
  {
    var rs := RevokedScript(detail);
    var s2 := Session(PyStr("T"), PyStr("U1"), rs[2..], [Login, Esso]);
    var s3 := Session(PyStr("T"), PyStr("U1"), rs[3..], [Login, Esso, FirstUsage]);
    assert rs[2..][1..] == rs[3..];
    assert Exchange(s2, FirstUsage).after == s3;
    RevokedSessionReissue(detail);
    PhoneDataUsageRetryStep(Customer, s2, PyStr("U1"), "91234567");
    RevokedSessionRepeat(detail);
  }

  /** The bot's sequence of calls on a new client whose first u-token is revoked before the
      usage request: the login and the first exchange succeed, the usage request is refused
      with `401`, the client exchanges the cached user token for a new u-token without
      logging in again, and the repeated usage request returns the first usage detail. */
  method RevokedUTokenSession(detail: Value) returns (r: Result<Value, ApiFailure>, requests: seq<Request>)
    ensures r == Ok(detail)
    ensures requests == [LoginRequest("user", "secret"), EssoRequest("user", PyStr("T")),
                         UsageRequest(PyStr("U1"), "91234567"), EssoRequest("user", PyStr("T")),
                         UsageRequest(PyStr("U2"), "91234567")]
  {
    RevokedSessionTokens(detail);
    RevokedSessionUsage(detail);
    var api := new StarHubApi("user", "secret", RevokedScript(detail));
    var userToken := api.GetUserToken();
    var uToken := api.GetUToken(userToken.value);
    r := api.GetPhoneDataUsage(uToken.value, "91234567");
    requests := api.sent;
  }
}
