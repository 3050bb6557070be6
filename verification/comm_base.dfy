/** The transport-independent part of the communication layer: the REST method
    registry, request preparation, the check that turns a rejected response into an
    exception, the construction of the client's errors, and the translation of a
    caught transport condition into one of those errors (0MQ and HTTP). */
module CommBase {
  import opened Json
  import opened Errors

  // ---------------------------------------------------------------------------
  // REST method registry

  /** How one logical method is sent over HTTP. */
  datatype Endpoint = Endpoint(verb: string, path: string)

  // The registry, one group of routes at a time in the order of the source; the
  // groups have no name in common.

  /** Server status. */
  const StatusRoutes: map<string, Endpoint> := map[
    "ping" := Endpoint("GET", "/api/ping"),
    "status" := Endpoint("GET", "/api/status")
  ]

  /** The plan queue as a whole. */
  const QueueRoutes: map<string, Endpoint> := map[
    "queue_start" := Endpoint("POST", "/api/queue/start"),
    "queue_stop" := Endpoint("POST", "/api/queue/stop"),
    "queue_stop_cancel" := Endpoint("POST", "/api/queue/stop/cancel"),
    "queue_get" := Endpoint("GET", "/api/queue/get"),
    "queue_clear" := Endpoint("POST", "/api/queue/clear"),
    "queue_mode_set" := Endpoint("POST", "/api/queue/mode/set")
  ]

  /** Adding, reading and changing queue items. */
  const QueueItemRoutes: map<string, Endpoint> := map[
    "queue_item_add" := Endpoint("POST", "/api/queue/item/add"),
    "queue_item_add_batch" := Endpoint("POST", "/api/queue/item/add/batch"),
    "queue_item_get" := Endpoint("GET", "/api/queue/item/get"),
    "queue_item_update" := Endpoint("POST", "/api/queue/item/update")
  ]

  /** Removing, moving and executing queue items. */
  const QueueItemMoveRoutes: map<string, Endpoint> := map[
    "queue_item_remove" := Endpoint("POST", "/api/queue/item/remove"),
    "queue_item_remove_batch" := Endpoint("POST", "/api/queue/item/remove/batch"),
    "queue_item_move" := Endpoint("POST", "/api/queue/item/move"),
    "queue_item_move_batch" := Endpoint("POST", "/api/queue/item/move/batch"),
    "queue_item_execute" := Endpoint("POST", "/api/queue/item/execute")
  ]

  /** The plan history. */
  const HistoryRoutes: map<string, Endpoint> := map[
    "history_get" := Endpoint("GET", "/api/history/get"),
    "history_clear" := Endpoint("POST", "/api/history/clear")
  ]

  /** The worker environment. */
  const EnvironmentRoutes: map<string, Endpoint> := map[
    "environment_open" := Endpoint("POST", "/api/environment/open"),
    "environment_close" := Endpoint("POST", "/api/environment/close"),
    "environment_destroy" := Endpoint("POST", "/api/environment/destroy")
  ]

  /** The Run Engine. */
  const RunEngineRoutes: map<string, Endpoint> := map[
    "re_pause" := Endpoint("POST", "/api/re/pause"),
    "re_resume" := Endpoint("POST", "/api/re/resume"),
    "re_stop" := Endpoint("POST", "/api/re/stop"),
    "re_abort" := Endpoint("POST", "/api/re/abort"),
    "re_halt" := Endpoint("POST", "/api/re/halt"),
    "re_runs" := Endpoint("POST", "/api/re/runs")
  ]

  /** Plans, devices and permissions. */
  const PlansDevicesRoutes: map<string, Endpoint> := map[
    "plans_allowed" := Endpoint("GET", "/api/plans/allowed"),
    "devices_allowed" := Endpoint("GET", "/api/devices/allowed"),
    "plans_existing" := Endpoint("GET", "/api/plans/existing"),
    "devices_existing" := Endpoint("GET", "/api/devices/existing"),
    "permissions_reload" := Endpoint("POST", "/api/permissions/reload"),
    "permissions_get" := Endpoint("GET", "/api/permissions/get"),
    "permissions_set" := Endpoint("POST", "/api/permissions/set")
  ]

  /** Scripts, functions and background tasks. */
  const ScriptTaskRoutes: map<string, Endpoint> := map[
    "script_upload" := Endpoint("POST", "/api/script/upload"),
    "function_execute" := Endpoint("POST", "/api/function/execute"),
    "task_status" := Endpoint("GET", "/api/task/status"),
    "task_result" := Endpoint("GET", "/api/task/result")
  ]

  /** The manager process. */
  const ManagerRoutes: map<string, Endpoint> := map[
    "manager_stop" := Endpoint("POST", "/api/manager/stop"),
    "manager_kill" := Endpoint("POST", "/api/test/manager/kill")
  ]

  /** The registry: logical method name to HTTP verb and path. */
  const RestApiMethodMap: map<string, Endpoint> :=
    StatusRoutes + QueueRoutes + QueueItemRoutes + QueueItemMoveRoutes + HistoryRoutes
    + EnvironmentRoutes + RunEngineRoutes + PlansDevicesRoutes + ScriptTaskRoutes + ManagerRoutes

  /** A GET or a POST under `/api/`, and under the test prefix `/api/test/` exactly for
      `manager_kill`. */
  predicate RouteShaped(name: string, e: Endpoint)
  {
    && (e.verb == "GET" || e.verb == "POST")
    && "/api/" <= e.path
    && ("/api/test/" <= e.path <==> name == "manager_kill")
  }

  predicate AllRoutesShaped(routes: map<string, Endpoint>)
  {
    forall name :: name in routes ==> RouteShaped(name, routes[name])
  }

  lemma UnionShaped(a: map<string, Endpoint>, b: map<string, Endpoint>)
    requires AllRoutesShaped(a) && AllRoutesShaped(b)
    ensures AllRoutesShaped(a + b)
  {
  }

  /** A path under `/api/test/` has `te` where every other route has its own name. */
  lemma TestPrefixChars(p: string)
    ensures "/api/test/" <= p ==> |p| >= 10 && p[5] == 't' && p[6] == 'e'
  {
  }

  lemma StatusRoutesShaped()
    ensures AllRoutesShaped(StatusRoutes)
  {
    forall name | name in StatusRoutes ensures RouteShaped(name, StatusRoutes[name]) {
      TestPrefixChars(StatusRoutes[name].path);
    }
  }

  lemma QueueRoutesShaped()
    ensures AllRoutesShaped(QueueRoutes)
  {
    forall name | name in QueueRoutes ensures RouteShaped(name, QueueRoutes[name]) {
      TestPrefixChars(QueueRoutes[name].path);
    }
  }

  lemma QueueItemRoutesShaped()
    ensures AllRoutesShaped(QueueItemRoutes)
  {
    forall name | name in QueueItemRoutes ensures RouteShaped(name, QueueItemRoutes[name]) {
      TestPrefixChars(QueueItemRoutes[name].path);
    }
  }

  lemma QueueItemMoveRoutesShaped()
    ensures AllRoutesShaped(QueueItemMoveRoutes)
  {
    forall name | name in QueueItemMoveRoutes ensures RouteShaped(name, QueueItemMoveRoutes[name]) {
      TestPrefixChars(QueueItemMoveRoutes[name].path);
    }
  }

  lemma HistoryRoutesShaped()
    ensures AllRoutesShaped(HistoryRoutes)
  {
    forall name | name in HistoryRoutes ensures RouteShaped(name, HistoryRoutes[name]) {
      TestPrefixChars(HistoryRoutes[name].path);
    }
  }

  lemma EnvironmentRoutesShaped()
    ensures AllRoutesShaped(EnvironmentRoutes)
  {
    forall name | name in EnvironmentRoutes ensures RouteShaped(name, EnvironmentRoutes[name]) {
      TestPrefixChars(EnvironmentRoutes[name].path);
    }
  }

  lemma RunEngineRoutesShaped()
    ensures AllRoutesShaped(RunEngineRoutes)
  {
    forall name | name in RunEngineRoutes ensures RouteShaped(name, RunEngineRoutes[name]) {
      TestPrefixChars(RunEngineRoutes[name].path);
    }
  }

  lemma PlansDevicesRoutesShaped()
    ensures AllRoutesShaped(PlansDevicesRoutes)
  {
    forall name | name in PlansDevicesRoutes ensures RouteShaped(name, PlansDevicesRoutes[name]) {
      TestPrefixChars(PlansDevicesRoutes[name].path);
    }
  }

  lemma ScriptTaskRoutesShaped()
    ensures AllRoutesShaped(ScriptTaskRoutes)
  {
    forall name | name in ScriptTaskRoutes ensures RouteShaped(name, ScriptTaskRoutes[name]) {
      TestPrefixChars(ScriptTaskRoutes[name].path);
    }
  }

  lemma ManagerRoutesShaped()
    ensures AllRoutesShaped(ManagerRoutes)
  {
    forall name | name in ManagerRoutes ensures RouteShaped(name, ManagerRoutes[name]) {
      TestPrefixChars(ManagerRoutes[name].path);
    }
  }

  lemma {:induction false} RegistryShaped()
    ensures AllRoutesShaped(RestApiMethodMap)
  {
    StatusRoutesShaped();
    QueueRoutesShaped();
    UnionShaped(StatusRoutes, QueueRoutes);
    var r := StatusRoutes + QueueRoutes;
    QueueItemRoutesShaped();
    UnionShaped(r, QueueItemRoutes);
    r := r + QueueItemRoutes;
    QueueItemMoveRoutesShaped();
    UnionShaped(r, QueueItemMoveRoutes);
    r := r + QueueItemMoveRoutes;
    HistoryRoutesShaped();
    UnionShaped(r, HistoryRoutes);
    r := r + HistoryRoutes;
    EnvironmentRoutesShaped();
    UnionShaped(r, EnvironmentRoutes);
    r := r + EnvironmentRoutes;
    RunEngineRoutesShaped();
    UnionShaped(r, RunEngineRoutes);
    r := r + RunEngineRoutes;
    PlansDevicesRoutesShaped();
    UnionShaped(r, PlansDevicesRoutes);
    r := r + PlansDevicesRoutes;
    ScriptTaskRoutesShaped();
    UnionShaped(r, ScriptTaskRoutes);
    r := r + ScriptTaskRoutes;
    ManagerRoutesShaped();
    UnionShaped(r, ManagerRoutes);
    r := r + ManagerRoutes;
  }

  /** Every route is a GET or a POST under `/api/`. */
  lemma RegistryVerbsAndPaths()
    ensures forall m :: m in RestApiMethodMap ==>
      (RestApiMethodMap[m].verb == "GET" || RestApiMethodMap[m].verb == "POST")
      && "/api/" <= RestApiMethodMap[m].path
  {
    RegistryShaped();
  }

  /** `manager_kill` is the only route under the test prefix `/api/test/`. */
  lemma OnlyManagerKillIsTestRoute()
    ensures "manager_kill" in RestApiMethodMap
    ensures forall m :: m in RestApiMethodMap ==>
      ("/api/test/" <= RestApiMethodMap[m].path <==> m == "manager_kill")
  {
    RegistryShaped();
    assert "manager_kill" in ManagerRoutes;
  }

  // ---------------------------------------------------------------------------
  // Request preparation (HTTP)

  /** What is handed to the HTTP client: verb, endpoint and payload. */
  datatype PreparedRequest = PreparedRequest(verb: string, endpoint: string, payload: JSON)

  /** `_prepare_request`: an unknown method fails before anything is sent; a known one
      gets its registry entry and the parameters, or `{}` when they are falsy. */
  function PrepareRequest(name: string, params: JSON): (r: Result<PreparedRequest>)
    ensures r.Err? <==> name !in RestApiMethodMap
    ensures r.Err? ==> r.error == KeyError("Unknown method " + ReprStr(name))
    ensures r.Ok? ==> r.value.verb == RestApiMethodMap[name].verb
                      && r.value.endpoint == RestApiMethodMap[name].path
    ensures r.Ok? && Truthy(params) ==> r.value.payload == params
    ensures r.Ok? && !Truthy(params) ==> r.value.payload == JMap(map[])
  {
    if name !in RestApiMethodMap then
      Err(KeyError("Unknown method " + ReprStr(name)))
    else
      var endpoint := RestApiMethodMap[name];
      var payload := if Truthy(params) then params else JMap(map[]);
      Ok(PreparedRequest(endpoint.verb, endpoint.path, payload))
  }

  /** The payload that is sent is never `None`: absent parameters become `{}`. */
  lemma PreparedPayloadIsNeverNone(name: string, params: JSON)
    requires name in RestApiMethodMap
    ensures PrepareRequest(name, params).Ok?
    ensures PrepareRequest(name, params).value.payload != JNull
    ensures params.JMap? ==> PrepareRequest(name, params).value.payload.JMap?
  {
    var r := PrepareRequest(name, params);
    assert r.Ok?;
    assert Truthy(params) ==> r.value.payload == params;
  }

  // ---------------------------------------------------------------------------
  // Errors

  /** The request recorded by a timeout: `{"method": method, "params": params}`. */
  function RequestRecord(name: string, params: JSON): (r: JSON)
    ensures r.JMap? && r.fields.Keys == {"method", "params"}
    ensures r.fields["method"] == JStr(name) && r.fields["params"] == params
  {
    JMap(map["method" := JStr(name), "params" := params])
  }

  /** `RequestTimeoutError(msg, request)`. */
  function NewRequestTimeoutError(msg: string, request: JSON): (f: Failure)
    ensures f.RequestTimeoutError? && f.request == request
    ensures |f.message| == |"Request timeout: "| + |msg|
    ensures f.message[..|"Request timeout: "|] == "Request timeout: "
    ensures f.message[|"Request timeout: "|..] == msg
  {
    RequestTimeoutError("Request timeout: " + msg, request)
  }

  /** The text that follows `Request failed: `: the response's `msg`, or `str(response)`
      for a response that is not a mapping, with `(no error message)` when that is
      empty or false. */
  function RequestFailedText(response: JSON): (text: string)
    ensures text != ""
    ensures response.JMap? && "msg" in response.fields && Truthy(response.fields["msg"])
            ==> text == Str(response.fields["msg"])
    ensures !response.JMap? && Str(response) != "" ==> text == Str(response)
  {
    if response.JMap? then
      var msg := if "msg" in response.fields then response.fields["msg"] else JStr("");
      if Truthy(msg) then Str(msg) else "(no error message)"
    else
      var text := Str(response);
      if text != "" then text else "(no error message)"
  }

  /** `RequestFailedError(request, response)`: the request and the response are kept
      as they are. */
  function NewRequestFailedError(request: JSON, response: JSON): (f: Failure)
    ensures f.RequestFailedError? && f.request == request && f.response == response
    ensures f.message == "Request failed: " + RequestFailedText(response)
  {
    RequestFailedError("Request failed: " + RequestFailedText(response), request, response)
  }

  /** The message of a `RequestFailedError` for a mapping response: the server's `msg`
      when it gave a non-empty one, a placeholder when `msg` is missing or false. */
  lemma RequestFailedMessageCases(request: JSON, response: JSON)
    requires response.JMap?
    ensures var f := NewRequestFailedError(request, response);
      && ("msg" in response.fields && response.fields["msg"].JStr? && response.fields["msg"].s != ""
          ==> f.message == "Request failed: " + response.fields["msg"].s)
      && ("msg" !in response.fields || !Truthy(response.fields["msg"])
          ==> f.message == "Request failed: (no error message)")
  {
  }

  /** The message of a `RequestFailedError` for a response that is not a mapping:
      `str(response)`, so `None` itself for a missing response. */
  lemma RequestFailedMessageOfNonMapping(request: JSON, response: JSON)
    requires response.JStr? || response.JNull?
    ensures var f := NewRequestFailedError(request, response);
      && (response.JStr? && response.s != "" ==> f.message == "Request failed: " + response.s)
      && (response.JStr? && response.s == "" ==> f.message == "Request failed: (no error message)")
      && (response == JNull ==> f.message == "Request failed: None")
  {
    if response.JStr? {
      assert RequestFailedText(response) == (if response.s != "" then response.s else "(no error message)");
    } else {
      assert Repr(JNull) == "None";
      assert RequestFailedText(JNull) == "None";
    }
  }

  /** A response counts as rejected when it is not a mapping, or when its `success`
      (true when absent) is false; a status-style mapping without `success` is not. */
  predicate IsRejected(response: JSON)
    ensures response.JMap? && "success" !in response.fields ==> !IsRejected(response)
    ensures response.JMap? && "success" in response.fields
            ==> (IsRejected(response) <==> !Truthy(response.fields["success"]))
    ensures !response.JMap? ==> IsRejected(response)
  {
    !response.JMap?
    || !Truthy(if "success" in response.fields then response.fields["success"] else JBool(true))
  }

  // ---------------------------------------------------------------------------
  // Transport conditions and their classification

  /** An HTTP response as the error handler sees it. `hasContent` says whether the
      body bytes are non-empty and `body` is what `.json()` decodes from them. */
  datatype HttpResponse = HttpResponse(statusCode: int, hasContent: bool, body: JSON)

  /** A condition caught around one request; `text` is `str()` of the exception. */
  datatype CommCondition =
      /** the 0MQ transport's `CommTimeoutError` */
    | CommTimeout(text: string)
      /** `httpx.TimeoutException`, a subclass of `httpx.RequestError` */
    | HttpTimeout(text: string)
      /** any other `httpx.RequestError` (connection refused, DNS failure, ...) */
    | HttpRequestError(text: string)
      /** `httpx.HTTPStatusError` with the exception's own response and request URL */
    | HttpStatusError(text: string, response: HttpResponse, url: string)
    | OtherException(text: string)

  /** `isinstance(c, httpx.TimeoutException)` */
  predicate IsHttpxTimeout(c: CommCondition)
  {
    c.HttpTimeout?
  }

  /** `isinstance(c, httpx.RequestError)`: timeouts are request errors too. */
  predicate IsHttpxRequestError(c: CommCondition)
  {
    c.HttpTimeout? || c.HttpRequestError?
  }

  /** What an `except` block does with the condition it caught. */
  datatype Handling = Raise(failure: Failure) | Reraise

  /** `_process_comm_exception` of the 0MQ client. */
  function ZmqCommException(name: string, params: JSON, c: CommCondition): (h: Handling)
    ensures c.CommTimeout? <==> h.Raise?
    ensures c.CommTimeout? ==> h.failure == NewRequestTimeoutError(c.text, RequestRecord(name, params))
  {
    if c.CommTimeout? then Raise(NewRequestTimeoutError(c.text, RequestRecord(name, params)))
    else Reraise
  }

  /** Whether the status-error branch reports the server's detail: a response was
      passed (an httpx response is always true) and its status is below 500. */
  predicate ReportsDetail(clientResponse: Option<HttpResponse>)
  {
    clientResponse.Some? && clientResponse.value.statusCode < 500
  }

  /** The `detail` part of a client-error message, or the exception raised while
      reading it from the decoded body. */
  function StatusDetail(clientResponse: HttpResponse, excResponse: HttpResponse): (r: Result<string>)
    ensures !clientResponse.hasContent ==> r == Ok("")
    ensures clientResponse.hasContent ==> (r.Ok? <==> Subscript(excResponse.body, "detail").Ok?)
    ensures clientResponse.hasContent && r.Ok? ==> r.value == Str(Subscript(excResponse.body, "detail").value)
    ensures r.Err? ==> r.error == Subscript(excResponse.body, "detail").error
  {
    if clientResponse.hasContent then
      match Subscript(excResponse.body, "detail")
      case Ok(d) => Ok(Str(d))
      case Err(e) => Err(e)
    else Ok("")
  }

  /** `"<code>: <detail> <url>"` */
  function ClientErrorMessage(code: int, detail: string, url: string): (m: string)
    ensures |m| == |IntToDecimal(code)| + 2 + |detail| + 1 + |url|
    ensures IntToDecimal(code) + ": " + detail <= m
    ensures m[|m| - |url| - 1..] == " " + url
  {
    var head := IntToDecimal(code) + ": " + detail;
    var tail := " " + url;
    assert (head + tail)[..|head|] == head;
    assert (head + tail)[|head|..] == tail;
    head + tail
  }

  /** `_process_comm_exception` of the HTTP client, in the order of its `except`
      clauses: timeout first, then other request errors, then status errors. */
  function HttpCommException(name: string, params: JSON, clientResponse: Option<HttpResponse>,
                             c: CommCondition): (h: Handling)
    ensures IsHttpxTimeout(c) ==>
      h == Raise(NewRequestTimeoutError(c.text, RequestRecord(name, params)))
    ensures IsHttpxRequestError(c) && !IsHttpxTimeout(c) ==>
      h == Raise(RequestError("HTTP request error: " + c.text))
    ensures c.HttpStatusError? && !ReportsDetail(clientResponse) ==>
      h == Raise(ClientError(c.text, false))
    ensures c.HttpStatusError? && ReportsDetail(clientResponse) ==>
      h.Raise? && (h.failure.ClientError? || h.failure.KeyError? || h.failure.TypeError?)
    ensures c.HttpStatusError? && ReportsDetail(clientResponse) && !clientResponse.value.hasContent ==>
      h == Raise(ClientError(ClientErrorMessage(c.response.statusCode, "", c.url), true))
    ensures c.HttpStatusError? && ReportsDetail(clientResponse) && clientResponse.value.hasContent
            && Subscript(c.response.body, "detail").Ok? ==>
      h == Raise(ClientError(ClientErrorMessage(c.response.statusCode,
                                                Str(Subscript(c.response.body, "detail").value), c.url), true))
    ensures c.HttpStatusError? && ReportsDetail(clientResponse) && clientResponse.value.hasContent
            && Subscript(c.response.body, "detail").Err? ==>
      h == Raise(Subscript(c.response.body, "detail").error)
    ensures h.Reraise? <==> c.CommTimeout? || c.OtherException?
  {
    if IsHttpxTimeout(c) then
      Raise(NewRequestTimeoutError(c.text, RequestRecord(name, params)))
    else if IsHttpxRequestError(c) then
      Raise(RequestError("HTTP request error: " + c.text))
    else if c.HttpStatusError? then
      if ReportsDetail(clientResponse) then
        match StatusDetail(clientResponse.value, c.response)
        case Ok(detail) =>
          Raise(ClientError(ClientErrorMessage(c.response.statusCode, detail, c.url), true))
        case Err(e) => Raise(e)
      else
        Raise(ClientError(c.text, false))
    else
      Reraise
  }

  /** What `ClientError(exc)` raises: httpx's `HTTPStatusError.__init__` takes
      `request` and `response` as required keyword-only arguments. */
  const ClientErrorWithoutExchange: Failure :=
    TypeError("HTTPStatusError.__init__() missing 2 required keyword-only arguments: 'request' and 'response'")

  /** `_process_comm_exception` of the HTTP client as written: the status-error branch
      without detail constructs `ClientError(exc)`, and that construction itself fails. */
  function HttpCommExceptionAsWritten(name: string, params: JSON, clientResponse: Option<HttpResponse>,
                                      c: CommCondition): (h: Handling)
    ensures c.HttpStatusError? && !ReportsDetail(clientResponse) ==> h == Raise(ClientErrorWithoutExchange)
    ensures !(c.HttpStatusError? && !ReportsDetail(clientResponse)) ==>
      h == HttpCommException(name, params, clientResponse, c)
  {
    if c.HttpStatusError? && !ReportsDetail(clientResponse) then Raise(ClientErrorWithoutExchange)
    else HttpCommException(name, params, clientResponse, c)
  }

  /** A 503 from the server: as written the handler raises a `TypeError`, while the
      intended handler raises an opaque `ClientError` carrying the exception text. */
  lemma ServerErrorRaisesTypeErrorAsWritten(name: string, params: JSON, text: string, url: string)
    ensures var r := HttpResponse(503, true, JMap(map[]));
            var c := HttpStatusError(text, r, url);
            && HttpCommExceptionAsWritten(name, params, Some(r), c).failure.TypeError?
            && HttpCommException(name, params, Some(r), c) == Raise(ClientError(text, false))
  {
  }

  /** A timeout is also a request error, yet it is reported as a timeout. */
  lemma TimeoutWinsOverRequestError(name: string, params: JSON, resp: Option<HttpResponse>,
                                    text: string)
    ensures IsHttpxRequestError(HttpTimeout(text))
    ensures HttpCommException(name, params, resp, HttpTimeout(text)).failure.RequestTimeoutError?
    ensures HttpCommException(name, params, resp, HttpTimeout(text)).failure.message
            == "Request timeout: " + text
  {
  }

  /** A client error with detail starts with the status code written in decimal
      followed by `: `, and that code can be read back from the message. */
  lemma {:induction false} ClientErrorMessageCarriesCode(code: nat, detail: string, url: string)
    ensures var m := ClientErrorMessage(code, detail, url);
            var n := |NatToDecimal(code)|;
            n < |m| && AllDigits(m[..n]) && DecimalValue(m[..n]) == code && m[n] == ':'
  {
    NatToDecimalRoundTrip(code);
    var m := ClientErrorMessage(code, detail, url);
    var digits := NatToDecimal(code);
    var n := |digits|;
    var head := digits + ": " + detail;
    assert head <= m;
    assert head[..n] == digits && head[n] == ':';
    assert m[..n] == digits;
  }

  /** A 404 whose body carries a `detail` string is reported with that detail and the
      request URL. */
  lemma NotFoundReportsDetailAndUrl(name: string, params: JSON, text: string, detail: string,
                                    url: string)
    ensures var r := HttpResponse(404, true, JMap(map["detail" := JStr(detail)]));
            HttpCommException(name, params, Some(r), HttpStatusError(text, r, url))
            == Raise(ClientError("404: " + detail + " " + url, true))
  {
    assert NatToDecimal(404) == "404";
    assert ClientErrorMessage(404, detail, url) == "404: " + detail + " " + url;
  }

  // ---------------------------------------------------------------------------
  // Client state shared by both transports

  datatype Protocol = ZMQ | HTTP

  class ReManagerApi {
    /** `_request_fail_exceptions`: the value given to the constructor, or the `bool`
        stored by the property setter */
    var requestFailExceptions: JSON
    /** `_protocol`: `None` until a transport-specific constructor sets it */
    var protocol: Option<Protocol>
    /** `_pass_user_info`: whether user name and group are sent with requests */
    var passUserInfo: bool

    /** `ReManagerAPI_Base.__init__` */
    constructor Base(requestFailExceptions: JSON)
      ensures this.requestFailExceptions == requestFailExceptions
      ensures protocol == None && passUserInfo
    {
      this.requestFailExceptions := requestFailExceptions;
      protocol := None;
      passUserInfo := true;
    }

    /** `ReManagerAPI_ZMQ_Base.__init__`, without the socket and the environment. */
    constructor Zmq(requestFailExceptions: JSON)
      ensures this.requestFailExceptions == requestFailExceptions
      ensures protocol == Some(ZMQ) && passUserInfo
    {
      this.requestFailExceptions := requestFailExceptions;
      protocol := Some(ZMQ);
      passUserInfo := true;
    }

    /** `ReManagerAPI_HTTP_Base.__init__`, without the HTTP client and the environment:
        the HTTP server assigns user and group, so they are not sent. */
    constructor Http(requestFailExceptions: JSON)
      ensures this.requestFailExceptions == requestFailExceptions
      ensures protocol == Some(HTTP) && !passUserInfo
    {
      this.requestFailExceptions := requestFailExceptions;
      protocol := Some(HTTP);
      passUserInfo := false;
    }

    /** The `request_fail_exceptions_enabled` setter stores `bool(v)`. */
    method SetRequestFailExceptionsEnabled(v: JSON)
      modifies this`requestFailExceptions
      ensures requestFailExceptions == JBool(Truthy(v))
      ensures Truthy(requestFailExceptions) == Truthy(v)
    {
      requestFailExceptions := JBool(Truthy(v));
    }

    /** The `protocol` property. */
    function GetProtocol(): (r: Result<Protocol>)
      reads this
      ensures r.Err? <==> protocol.None?
      ensures r.Err? ==> r.error == ValueError("Protocol is not defined")
      ensures r.Ok? ==> Some(r.value) == protocol
    {
      if protocol.None? then Err(ValueError("Protocol is not defined")) else Ok(protocol.value)
    }

    /** `_check_response`: `Some(error)` is the exception raised. Nothing is raised while
        fail exceptions are disabled; otherwise exactly the rejected responses raise. */
    function CheckResponse(request: JSON, response: JSON): (r: Option<Failure>)
      reads this
      ensures !Truthy(requestFailExceptions) ==> r.None?
      ensures Truthy(requestFailExceptions) ==> (r.Some? <==> IsRejected(response))
      ensures r.Some? ==> r.value == NewRequestFailedError(request, response)
    {
      if Truthy(requestFailExceptions) && IsRejected(response) then
        Some(NewRequestFailedError(request, response))
      else None
    }
  }
}
