/**
 * A model of api_interface.py: the `check_status` decorator, the `BaseClient`
 * that builds request URLs, and the `Api` facade with its `todos` endpoint.
 *
 * Side effects become data. An HTTP call is a `Sent` event and its response
 * comes from a `transport` function passed in; a log line is a `Log` event
 * with a level and an abstract payload. Every call yields an `Outcome`: the
 * response it returns together with the trace of events it produced.
 */
module ApiInterface {

  import opened Wrappers
  import opened PyValues
  import opened PyFormat

  // ---------------------------------------------------------------------
  // Requests, responses and events
  // ---------------------------------------------------------------------

  /** The HTTP digest credentials that `Api` hands to its client. */
  datatype Auth = DigestAuth(user: string, password: string)

  /** What `BaseClient.request` hands to the HTTP session. */
  datatype HttpRequest = HttpRequest(verb: string, url: string, auth: Auth, verifyTls: bool)

  /** The request as echoed back on a response (`response.request`). */
  datatype PreparedRequest = PreparedRequest(verb: string, url: string, body: Option<string>)

  /** A response, treated as an opaque record of the fields the wrapper reads. */
  datatype Response = Response(statusCode: int, request: PreparedRequest, text: string)

  datatype Level = Info | Error

  /** What a log line reports; the exact wording of the line is not modelled. */
  datatype Payload =
    | CalledPayload(verb: string, url: string)
    | StatusCodePayload(code: int)
    | RequestBodyHeading
    | RequestBodyPayload(body: Option<string>)
    | ResponseHeading
    | ResponseTextPayload(text: string)

  datatype Event = Sent(request: HttpRequest) | Log(level: Level, payload: Payload)

  /** What a call returns, with the events it produced in order. */
  datatype Outcome = Outcome(response: Response, trace: seq<Event>)

  /** The number of HTTP calls in a trace. */
  function SentCount(trace: seq<Event>): nat
  {
    if trace == [] then 0 else (if trace[0].Sent? then 1 else 0) + SentCount(trace[1..])
  }

  /** The number of log events of the given level in a trace. */
  function LevelCount(trace: seq<Event>, level: Level): nat
  {
    if trace == [] then 0
    else
      var here := if trace[0].Log? && trace[0].level == level then 1 else 0;
      here + LevelCount(trace[1..], level)
  }

  lemma {:induction false} CountsAppend(a: seq<Event>, b: seq<Event>)
    ensures SentCount(a + b) == SentCount(a) + SentCount(b)
    ensures LevelCount(a + b, Info) == LevelCount(a, Info) + LevelCount(b, Info)
    ensures LevelCount(a + b, Error) == LevelCount(a, Error) + LevelCount(b, Error)
  {
    if a != [] {
      CountsAppend(a[1..], b);
      assert (a + b)[1..] == a[1..] + b;
    } else {
      assert a + b == b;
    }
  }

  /** A trace made only of log lines of one level. */
  lemma {:induction false} OneLevelCounts(events: seq<Event>, level: Level)
    requires forall k :: 0 <= k < |events| ==> events[k].Log? && events[k].level == level
    ensures SentCount(events) == 0
    ensures LevelCount(events, level) == |events|
    ensures LevelCount(events, if level == Info then Error else Info) == 0
  {
    if events != [] {
      OneLevelCounts(events[1..], level);
    }
  }

  // ---------------------------------------------------------------------
  // check_status and its wrapper
  // ---------------------------------------------------------------------

  /** The configuration a `check_status(...)` decorator closes over. */
  datatype StatusCheck = StatusCheck(successCodes: seq<Value>, silent: bool)

  /** `check_status(success_code=200, silent=False)`: a list argument is copied
      element for element; any other argument, a tuple or a set included,
      becomes a one-element list holding it whole. */
  function CheckStatus(successCode: Value := Int(200), silent: bool := false): (check: StatusCheck)
    ensures check.silent == silent
    ensures |check.successCodes| == (if successCode.List? then |successCode.items| else 1)
    ensures forall k :: 0 <= k < |check.successCodes| ==>
      check.successCodes[k] == (if successCode.List? then successCode.items[k] else successCode)
  {
    var codes := if successCode.List? then successCode.items else [successCode];
    StatusCheck(codes, silent)
  }

  /** A status passes the normalised codes exactly when Python's `==` relates
      it to an element of a list argument, or to a non-list argument itself. */
  lemma AcceptedStatuses(successCode: Value, silent: bool, status: int)
    ensures Contains(CheckStatus(successCode, silent).successCodes, status) <==>
      if successCode.List? then
        exists k :: 0 <= k < |successCode.items| && EqualsInt(successCode.items[k], status)
      else
        EqualsInt(successCode, status)
  {
    if !successCode.List? {
      ContainsSingleton(successCode, status);
    }
  }

  /** With the default argument only status 200 passes. */
  lemma DefaultAcceptsOnly200(status: int)
    ensures Contains(CheckStatus().successCodes, status) <==> status == 200
  {
    AcceptedStatuses(Int(200), false, status);
  }

  /** A tuple or a set is wrapped whole, and no integer equals a tuple or a
      set, so such an argument lets no status pass. */
  lemma TupleOrSetAcceptsNothing(successCode: Value, silent: bool, status: int)
    requires successCode.Tuple? || successCode.Set?
    ensures !Contains(CheckStatus(successCode, silent).successCodes, status)
  {
    AcceptedStatuses(successCode, silent, status);
  }

  /** Normalising the already normalised list changes nothing. */
  lemma NormalisationIdempotent(successCode: Value, silent: bool)
    ensures CheckStatus(List(CheckStatus(successCode, silent).successCodes), silent)
         == CheckStatus(successCode, silent)
  {
  }

  /** Whether `wrapper` takes the branch for a successful response. */
  predicate Accepts(check: StatusCheck, response: Response)
    ensures Accepts(check, response) <==>
      exists k :: 0 <= k < |check.successCodes| && EqualsInt(check.successCodes[k], response.statusCode)
  {
    Contains(check.successCodes, response.statusCode)
  }

  /** The info line naming the request's method and URL. */
  function CalledEvent(response: Response): (e: Event)
    ensures e.Log? && e.level == Info && e.payload.CalledPayload?
    ensures e.payload.verb == response.request.verb && e.payload.url == response.request.url
  {
    Log(Info, CalledPayload(response.request.verb, response.request.url))
  }

  /** The log lines `wrapper` emits once the wrapped call returned `response`:
      on success one info line, or none when silent; otherwise the info line
      and five error lines, the first of them carrying the status code,
      whatever `silent` says. */
  function StatusLog(check: StatusCheck, response: Response): (events: seq<Event>)
    ensures SentCount(events) == 0
    ensures Accepts(check, response) ==>
      && LevelCount(events, Error) == 0
      && |events| == LevelCount(events, Info) == (if check.silent then 0 else 1)
      && (!check.silent ==> events == [CalledEvent(response)])
    ensures !Accepts(check, response) ==>
      && |events| == 6
      && events[0] == CalledEvent(response)
      && events[1] == Log(Error, StatusCodePayload(response.statusCode))
      && events[2] == Log(Error, RequestBodyHeading)
      && events[3] == Log(Error, RequestBodyPayload(response.request.body))
      && events[4] == Log(Error, ResponseHeading)
      && events[5] == Log(Error, ResponseTextPayload(response.text))
      && LevelCount(events, Info) == 1
      && LevelCount(events, Error) == 5
  {
    if Accepts(check, response) then
      if check.silent then [] else [CalledEvent(response)]
    else
      var errors := [
        Log(Error, StatusCodePayload(response.statusCode)),
        Log(Error, RequestBodyHeading),
        Log(Error, RequestBodyPayload(response.request.body)),
        Log(Error, ResponseHeading),
        Log(Error, ResponseTextPayload(response.text))];
      OneLevelCounts([CalledEvent(response)], Info);
      OneLevelCounts(errors, Error);
      CountsAppend([CalledEvent(response)], errors);
      [CalledEvent(response)] + errors
  }

  /** `check_status(...)(f)(*args)`, where `inner` is what the one call of `f`
      returned and did. The response comes back unchanged on both branches,
      the wrapper adds no HTTP call, and error lines appear exactly when the
      status is not among the success codes. */
  function Wrap(check: StatusCheck, inner: Outcome): (r: Outcome)
    ensures r.response == inner.response
    ensures |inner.trace| <= |r.trace| && r.trace[..|inner.trace|] == inner.trace
    ensures r.trace[|inner.trace|..] == StatusLog(check, inner.response)
    ensures SentCount(r.trace) == SentCount(inner.trace)
    ensures LevelCount(r.trace, Error) > LevelCount(inner.trace, Error) <==> !Accepts(check, inner.response)
  {
    var events := StatusLog(check, inner.response);
    CountsAppend(inner.trace, events);
    Outcome(inner.response, inner.trace + events)
  }

  /** The flag `silent` only matters on success, and a silent success leaves
      the wrapped call's outcome exactly as it was. */
  lemma SilentOnlyHidesSuccess(codes: seq<Value>, inner: Outcome)
    ensures Accepts(StatusCheck(codes, true), inner.response) ==>
      Wrap(StatusCheck(codes, true), inner) == inner
    ensures !Accepts(StatusCheck(codes, true), inner.response) ==>
      Wrap(StatusCheck(codes, true), inner) == Wrap(StatusCheck(codes, false), inner)
  {
    assert inner.trace + [] == inner.trace;
  }

  // ---------------------------------------------------------------------
  // BaseClient
  // ---------------------------------------------------------------------

  const Scheme: string := "https://"

  /** Python truthiness of the `port` argument: `None` and `0` are false. */
  predicate PortIsTruthy(port: Option<int>)
    ensures PortIsTruthy(port) <==> !(port == None || port == Some(0))
  {
    port.Some? && port.value != 0
  }

  /** The `self.url` that `BaseClient.__init__` computes: the scheme and the
      host, then a colon and the port's decimal form exactly when the port is
      truthy. */
  function BaseUrl(host: string, port: Option<int>): (url: string)
    ensures |Scheme + host| <= |url| && url[..|Scheme + host|] == Scheme + host
    ensures ':' in url[|Scheme + host|..] <==> PortIsTruthy(port)
    ensures PortIsTruthy(port) ==> url == Scheme + host + ":" + IntToStr(port.value)
    ensures !PortIsTruthy(port) ==> url == Scheme + host
  {
    if PortIsTruthy(port) then
      var url := Scheme + host + ":" + IntToStr(port.value);
      assert url[|Scheme + host|..] == ":" + IntToStr(port.value);
      url
    else
      Scheme + host
  }

  /** Splits a string at its first colon, if it has one. */
  function SplitAtColon(s: string): (parts: (string, Option<string>))
    ensures ':' !in parts.0
    ensures parts.1.None? ==> parts.0 == s
    ensures parts.1.Some? ==> s == parts.0 + ":" + parts.1.value
  {
    if s == [] then ("", None)
    else if s[0] == ':' then ("", Some(s[1..]))
    else
      var (rest, port) := SplitAtColon(s[1..]);
      ([s[0]] + rest, port)
  }

  lemma {:induction false} SplitAtFirstColon(a: string, b: string)
    requires ':' !in a
    ensures SplitAtColon(a + ":" + b) == (a, Some(b))
  {
    if a != [] {
      SplitAtFirstColon(a[1..], b);
      assert (a + ":" + b)[1..] == a[1..] + ":" + b;
      assert [a[0]] + a[1..] == a;
    } else {
      assert a + ":" + b == [':'] + b;
    }
  }

  lemma SplitWithoutColon(a: string)
    requires ':' !in a
    ensures SplitAtColon(a) == (a, None)
  {
  }

  /** Reads a base URL back into its host and port, when it has that shape. */
  function ParseBaseUrl(url: string): Option<(string, Option<int>)>
  {
    if |url| < |Scheme| || url[..|Scheme|] != Scheme then None
    else
      var (host, port) := SplitAtColon(url[|Scheme|..]);
      match port
      case None => Some((host, None))
      case Some(digits) => if IsIntLiteral(digits) then Some((host, Some(ParseInt(digits)))) else None
  }

  /** For a host without a colon the base URL gives back the host, and the
      port exactly when it is truthy: a port of 0 and no port at all build
      the same URL. */
  lemma BaseUrlRoundTrip(host: string, port: Option<int>)
    requires ':' !in host
    ensures ParseBaseUrl(BaseUrl(host, port)) == Some((host, if PortIsTruthy(port) then port else None))
  {
    var url := BaseUrl(host, port);
    if PortIsTruthy(port) {
      var digits := IntToStr(port.value);
      assert url[|Scheme|..] == host + ":" + digits;
      SplitAtFirstColon(host, digits);
      IntToStrRoundTrip(port.value);
    } else {
      assert url[|Scheme|..] == host;
      SplitWithoutColon(host);
    }
  }

  /** Two clients built from colon-free hosts share a URL only when they
      were given the same host and ports of the same truthiness and value. */
  lemma BaseUrlInjective(host1: string, port1: Option<int>, host2: string, port2: Option<int>)
    requires ':' !in host1 && ':' !in host2
    requires BaseUrl(host1, port1) == BaseUrl(host2, port2)
    ensures host1 == host2
    ensures PortIsTruthy(port1) == PortIsTruthy(port2)
    ensures PortIsTruthy(port1) ==> port1 == port2
  {
    BaseUrlRoundTrip(host1, port1);
    BaseUrlRoundTrip(host2, port2);
  }

  /** A `BaseClient`; its fields are assigned once and never change. */
  datatype BaseClient = BaseClient(url: string, auth: Auth, baseUrl: string)

  /** `BaseClient(host, port, auth, base_url='/api')`. */
  function NewBaseClient(host: string, port: Option<int>, auth: Auth, baseUrl: string := "/api"): (client: BaseClient)
    ensures client.url == BaseUrl(host, port)
    ensures client.auth == auth && client.baseUrl == baseUrl
  {
    BaseClient(BaseUrl(host, port), auth, baseUrl)
  }

  /** The request `BaseClient.request(method, endpoint)` hands to its session:
      the URL is the client's URL, then its base path, then the endpoint, and
      the endpoint can be read back off its end. */
  function RequestFor(client: BaseClient, verb: string, endpoint: string): (request: HttpRequest)
    ensures request.verb == verb && request.auth == client.auth && !request.verifyTls
    ensures |client.url + client.baseUrl| <= |request.url|
    ensures request.url[..|client.url + client.baseUrl|] == client.url + client.baseUrl
    ensures request.url[|client.url + client.baseUrl|..] == endpoint
  {
    var prefix := client.url + client.baseUrl;
    var url := prefix + endpoint;
    assert url[..|prefix|] == prefix && url[|prefix|..] == endpoint;
    HttpRequest(verb, url, client.auth, false)
  }

  /** `BaseClient.request(method, endpoint)`: one HTTP call through `transport`,
      whose response is returned as it came. */
  function Request(client: BaseClient, verb: string, endpoint: string,
                   transport: HttpRequest -> Response): (r: Outcome)
    ensures SentCount(r.trace) == 1 && LevelCount(r.trace, Info) == LevelCount(r.trace, Error) == 0
    ensures r.trace[0] == Sent(RequestFor(client, verb, endpoint))
    ensures r.response == transport(RequestFor(client, verb, endpoint))
  {
    var request := RequestFor(client, verb, endpoint);
    Outcome(transport(request), [Sent(request)])
  }

  // ---------------------------------------------------------------------
  // Api
  // ---------------------------------------------------------------------

  /** The settings `Api` reads from its configuration module; `port` is
      `None` when the setting is absent. */
  datatype Config = Config(host: string, port: Option<int>, user: string, password: string)

  datatype Api = Api(client: BaseClient)

  /** `Api()`: a client with digest credentials and the default base path. */
  function NewApi(config: Config): (api: Api)
    ensures api.client.url == BaseUrl(config.host, config.port)
    ensures api.client.auth == DigestAuth(config.user, config.password)
    ensures api.client.baseUrl == "/api"
  {
    Api(NewBaseClient(config.host, config.port, DigestAuth(config.user, config.password)))
  }

  /** The decorator configuration of `Api.todos`. */
  function TodosStatusCheck(): (check: StatusCheck)
    ensures !check.silent
    ensures forall status :: Contains(check.successCodes, status) <==> status == 200
  {
    CheckStatus(successCode := Int(200))
  }

  /** `Api.todos()`: one GET of `/todos`, checked against the single success
      code 200. A 200 adds one info line; any other status adds one info line
      and five error lines, the first carrying the status, and still returns
      the response. */
  function Todos(api: Api, transport: HttpRequest -> Response): (r: Outcome)
    ensures SentCount(r.trace) == 1
    ensures r.trace[0] == Sent(RequestFor(api.client, "GET", "/todos"))
    ensures r.response == transport(RequestFor(api.client, "GET", "/todos"))
    ensures r.response.statusCode == 200 ==>
      r.trace == [Sent(RequestFor(api.client, "GET", "/todos")), CalledEvent(r.response)]
    ensures r.response.statusCode != 200 ==>
      && |r.trace| == 7
      && r.trace[1] == CalledEvent(r.response)
      && r.trace[2] == Log(Error, StatusCodePayload(r.response.statusCode))
      && LevelCount(r.trace, Error) == 5
  {
    var inner := Request(api.client, "GET", "/todos", transport);
    CountsAppend(inner.trace, StatusLog(TodosStatusCheck(), inner.response));
    Wrap(TodosStatusCheck(), inner)
  }

  /** The URL `Api.todos` requests is the configured base URL followed by
      `/api/todos`, sent with the configured digest credentials. */
  lemma TodosUrl(config: Config, transport: HttpRequest -> Response)
    ensures Todos(NewApi(config), transport).trace[0]
         == Sent(HttpRequest("GET", BaseUrl(config.host, config.port) + "/api/todos",
                             DigestAuth(config.user, config.password), false))
  {
    var url := BaseUrl(config.host, config.port);
    assert url + "/api" + "/todos" == url + "/api/todos";
  }

  /** The two base URLs a client can have for `api.example.com`. */
  lemma ExampleBaseUrls()
    ensures BaseUrl("api.example.com", None) == "https://api.example.com"
    ensures BaseUrl("api.example.com", Some(0)) == "https://api.example.com"
    ensures BaseUrl("api.example.com", Some(8443)) == "https://api.example.com:8443"
  {
    assert NatToStr(8443) == "8443" by {
      assert NatToStr(8) == "8";
      assert NatToStr(84) == "84";
      assert NatToStr(844) == "844";
    }
  }
}
