# Bluesky Queue Server API — client core in Dafny

This project models the transport-independent core of the Python client library for the
Bluesky Queue Server (`bluesky_queueserver_api`): the layer that sits between the
user-facing API methods and the 0MQ or HTTP transports.

- **Communication base** (`comm_base.dfy`, module `CommBase`):
  - the REST route registry, with one verb and one endpoint per API method;
  - how an HTTP request is prepared from a method name and its parameters;
  - the client's exception types and how a caught transport condition is classified;
  - the check that turns a `success: False` response into `RequestFailedError`;
  - the per-client state (`ReManagerApi`): the protocol, whether user information is
    sent with requests, and whether failed requests raise.
- **API base** (`api_base.dfy`, module `ApiBase`):
  - the `WaitMonitor` that lets another thread or task cancel a wait;
  - the default user name and group, with their validation;
  - every `_prepare_*` builder of request parameters;
  - the `Api` class that holds the client-side caches.
- **Caches** (`api_caches.dfy`, module `ApiCaches`): one pure update function and one
  generator per cache (queue, history, allowed plans and devices per user group,
  existing plans and devices, runs). The `Api` methods are proved to change their cache
  exactly as these functions say. Round-trip lemmas show that a generated response
  reproduces what the server sent.
- **Python semantics the client relies on** (`json.dfy`, `errors.dfy`): decoded JSON
  values with Python truthiness, `==` (where `True == 1`), `str()`/`repr()`, and
  `d[k]` on values of any type. Exceptions become a `Failure` value. Operations that
  raise return `Result`/`Option` values carrying the exception.

An exception that a Python operation raises part-way through is modelled together with
the state it leaves behind. For example, a `queue_get` response that lacks
`running_item` still updates the cached queue items before the `KeyError` is raised.

## Model

| member | source | states |
|---|---|---|
| CommBase.RegistryShaped | bluesky_queueserver_api/comm_base.py:20-62 | every route of every group is a GET or a POST under `/api/`, and it is under `/api/test/` exactly when it is `manager_kill` |
| CommBase.RegistryVerbsAndPaths | bluesky_queueserver_api/comm_base.py:20-62 | every registered route is a GET or a POST whose endpoint starts with `/api/` |
| CommBase.OnlyManagerKillIsTestRoute | bluesky_queueserver_api/comm_base.py:20-62 | `manager_kill` is registered, and it is the only route under `/api/test/` |
| CommBase.PrepareRequest | bluesky_queueserver_api/comm_base.py:251-256 | fails with `KeyError("Unknown method '<name>'")` exactly when the method is not registered; otherwise returns the registered verb and endpoint, with the parameters as payload, or `{}` when they are falsy |
| CommBase.PreparedPayloadIsNeverNone | bluesky_queueserver_api/comm_base.py:255 | for a registered method the payload is never `None`, and mapping parameters stay a mapping |
| CommBase.RequestRecord | bluesky_queueserver_api/comm_base.py:212 | the request attached to a timeout is a mapping with exactly the keys `method` and `params`, holding the method name and the parameters |
| CommBase.NewRequestTimeoutError | bluesky_queueserver_api/comm_base.py:73-77 | the message is `Request timeout: ` followed by the original text, and the request is kept unchanged |
| CommBase.NewRequestFailedError | bluesky_queueserver_api/comm_base.py:80-87 | a `RequestFailedError` that keeps the request and the response unchanged and whose message is `Request failed: ` followed by the failure text |
| CommBase.RequestFailedMessageCases | bluesky_queueserver_api/comm_base.py:81-84 | for a mapping response, the message carries the server's non-empty `msg`, and it is `(no error message)` when `msg` is missing or falsy |
| CommBase.RequestFailedMessageOfNonMapping | bluesky_queueserver_api/comm_base.py:81-84 | a non-empty string response is used as is, an empty one gives `(no error message)`, and a `None` response gives `Request failed: None` |
| CommBase.RequestFailedText | bluesky_queueserver_api/comm_base.py:82-83 | never empty: a truthy `msg` of a mapping is used through `str()`, a non-mapping gives its own `str()` when that is not empty |
| CommBase.IsRejected | bluesky_queueserver_api/comm_base.py:134 | a mapping without `success` is not rejected; a mapping with `success` is rejected exactly when `success` is falsy; anything that is not a mapping is rejected |
| CommBase.ZmqCommException | bluesky_queueserver_api/comm_base.py:208-212 | only a 0MQ timeout is turned into `RequestTimeoutError`, carrying the request record; every other exception is re-raised |
| CommBase.StatusDetail | bluesky_queueserver_api/comm_base.py:280-284 | empty for a response without content; otherwise `str()` of the body's `detail`, or the error of looking it up |
| CommBase.ClientErrorMessage | bluesky_queueserver_api/comm_base.py:280-284 | the message is the decimal status code, `: `, the detail, a space and the URL, in that order |
| CommBase.HttpCommException | bluesky_queueserver_api/comm_base.py:263-287 | `except` clauses in order: a timeout raises `RequestTimeoutError`; another request error raises `RequestError("HTTP request error: ...")`; a status error below 500 raises `ClientError("<code>: <detail or ''> <url>")` with request and response attached, or the error met while reading `detail`; any other status error raises a `ClientError` with the exception's text; anything else is re-raised |
| CommBase.HttpCommExceptionAsWritten | bluesky_queueserver_api/comm_base.py:286-287 | as written, a status error without a response below 500 raises the `TypeError` of constructing `ClientError(exc)`; every other case agrees with `HttpCommException` |
| CommBase.ServerErrorRaisesTypeErrorAsWritten | bluesky_queueserver_api/comm_base.py:277-287 | for a 503 response the as-written handler raises a `TypeError`, while the corrected one raises a `ClientError` carrying the exception text |
| CommBase.TimeoutWinsOverRequestError | bluesky_queueserver_api/comm_base.py:268-275 | an httpx timeout is also a request error, yet it is reported as a `RequestTimeoutError` with the timeout's text |
| CommBase.ClientErrorMessageCarriesCode | bluesky_queueserver_api/comm_base.py:279-284 | a client-error message starts with the status code in decimal followed by `:`, and that prefix reads back as the code |
| CommBase.NotFoundReportsDetailAndUrl | bluesky_queueserver_api/comm_base.py:277-285 | a 404 whose body has a `detail` string raises `ClientError("404: <detail> <url>")` carrying request and response |
| CommBase.ReManagerApi.Base | bluesky_queueserver_api/comm_base.py:104-110 | keeps the fail-exceptions setting, leaves the protocol undefined and passes user information |
| CommBase.ReManagerApi.Zmq | bluesky_queueserver_api/comm_base.py:162-178 | protocol ZMQ; user information is passed |
| CommBase.ReManagerApi.Http | bluesky_queueserver_api/comm_base.py:215-231 | protocol HTTP; user information is not passed |
| CommBase.ReManagerApi.SetRequestFailExceptionsEnabled | bluesky_queueserver_api/comm_base.py:121-123 | stores the truth value of its argument as a bool |
| CommBase.ReManagerApi.GetProtocol | bluesky_queueserver_api/comm_base.py:151-159 | `ValueError("Protocol is not defined")` exactly when no protocol is set; otherwise the protocol |
| CommBase.ReManagerApi.CheckResponse | bluesky_queueserver_api/comm_base.py:125-135 | nothing is raised while fail exceptions are disabled; otherwise a `RequestFailedError` for exactly the rejected responses |
| ApiCaches.QueueGetUpdate | bluesky_queueserver_api/api_base.py:380-387 | the queue cache changes only on `success is True`; a missing `items`, `running_item` or `plan_queue_uid` raises `KeyError` for that key after the fields before it were copied; with all keys present, all three fields are replaced |
| ApiCaches.GenerateQueueGet | bluesky_queueserver_api/api_base.py:389-400 | a successful response with an empty message, carrying exactly the cached uid, running item and queue |
| ApiCaches.QueueGetRoundTrip | bluesky_queueserver_api/api_base.py:380-400 | after a complete successful `queue_get`, the generated response returns the items, running item and uid that the server sent |
| ApiCaches.DataUpdate | bluesky_queueserver_api/api_base.py:402-408 | the history, existing-plans and existing-devices caches change only on `success is True`; partial update before a `KeyError`; full replacement when both keys are present |
| ApiCaches.GenerateData | bluesky_queueserver_api/api_base.py:410-420 | a response with exactly `success`, `msg`, the data key and the uid key, carrying the cached values |
| ApiCaches.DataRoundTrip | bluesky_queueserver_api/api_base.py:402-420 | a complete successful update is reproduced by the generated response; an unsuccessful one changes nothing that is generated |
| ApiCaches.AllowedUpdate | bluesky_queueserver_api/api_base.py:438-446 | a uid that differs by Python `!=` clears every group and is stored; the group's entry is then set; `KeyError` for each missing key, and a missing data key leaves the cache already cleared and the new uid stored |
| ApiCaches.GenerateAllowed | bluesky_queueserver_api/api_base.py:448-458 | `KeyError(group)` exactly when the group has no cached entry |
| ApiCaches.AllowedSameUidKeepsOtherGroups | bluesky_queueserver_api/api_base.py:438-446 | a uid equal by Python `==` to the cached one keeps every other group's entry and changes only the requested group |
| ApiCaches.AllowedNewUidClearsOtherGroups | bluesky_queueserver_api/api_base.py:441-443 | a new uid leaves only the requested group, under the new uid |
| ApiCaches.AllowedRoundTrip | bluesky_queueserver_api/api_base.py:438-458 | after a complete successful update, the group's generated response holds the data sent and a uid equal by Python `==` to the uid sent |
| ApiCaches.VerifyReRunsOption | bluesky_queueserver_api/api_base.py:571-578 | exactly `None`, `'active'`, `'open'` and `'closed'` are accepted; anything else raises `IndexError` |
| ApiCaches.FilterRuns | bluesky_queueserver_api/api_base.py:594-597 | the selection is never longer than the run list; it fails only with `KeyError('is_open')` or a `TypeError` |
| ApiCaches.FilterRunList | bluesky_queueserver_api/api_base.py:594-597 | always a list on success; on a list it succeeds exactly when the filter does; an empty str or dict gives `[]` and a non-empty one fails; `None`, a bool or an int raise `TypeError` |
| ApiCaches.FilterRunsSpec | bluesky_queueserver_api/api_base.py:590-596 | the open/closed filter fails exactly when some run has no `is_open`; on success it holds exactly the runs whose flag matches |
| ApiCaches.FilterRunsConcat | bluesky_queueserver_api/api_base.py:590-596 | filtering keeps the order of the run list |
| ApiCaches.FilterRunsPartition | bluesky_queueserver_api/api_base.py:592-595 | the open and closed selections together hold every run exactly once |
| ApiCaches.SelectReRunsItems | bluesky_queueserver_api/api_base.py:590-600 | every option other than `'open'` or `'closed'` returns the whole list; those two return a list |
| ApiCaches.SelectReRunsItemsSpec | bluesky_queueserver_api/api_base.py:590-596 | for `'open'` and `'closed'` on a list: failure exactly when a run lacks `is_open`, otherwise exactly the matching runs |
| ApiCaches.ReRunsUpdate | bluesky_queueserver_api/api_base.py:580-588 | the run cache is updated like the other data caches; a complete successful response succeeds exactly when the selection does, else raises the selection's error; on success the returned response is the given one with `run_list` replaced by the selection |
| ApiCaches.GenerateReRuns | bluesky_queueserver_api/api_base.py:602-612 | succeeds exactly when the selection does; `success` true, empty `msg`, the cached uid and the selected runs |
| ApiCaches.ReRunsRoundTrip | bluesky_queueserver_api/api_base.py:580-612 | regenerating with the same option returns the runs and the uid of the update |
| Errors.Subscript | bluesky_queueserver_api/api_base.py:594-597 | `v[key]` succeeds exactly on a dict holding the key; a dict without it raises `KeyError(key)`, anything else a `TypeError` |
| Json.PyEqBoolIsInt | bluesky_queueserver_api/api_base.py:443 | a bool equals an int by Python `==` exactly when the int is its numeric value; neither equals a value that is not a bool or an int |
| ApiBase.WaitMonitor.constructor | bluesky_queueserver_api/api_base.py:95-101 | zero times, no callbacks, not cancelled |
| ApiBase.WaitMonitor.SetTimeout | bluesky_queueserver_api/api_base.py:124-128 | changes the timeout and nothing else |
| ApiBase.WaitMonitor.AddCancelCallback | bluesky_queueserver_api/api_base.py:130-135 | appends the callback |
| ApiBase.WaitMonitor.Cancel | bluesky_queueserver_api/api_base.py:137-149 | runs every registered callback once, in order, whether or not an earlier one raised an `Exception`; then empties the list and marks the monitor cancelled, so a second cancel runs nothing |
| ApiBase.CheckName | bluesky_queueserver_api/api_base.py:192-196 | no error exactly for a non-empty string; otherwise a `ValueError`, with the empty-string message for `''` |
| ApiBase.AddRequestParam | bluesky_queueserver_api/api_base.py:255-260 | the name is set to the value when the value is not `None`; a `None` value leaves the parameters unchanged |
| ApiBase.AddRequestParamKeepsOthers | bluesky_queueserver_api/api_base.py:255-260 | no key other than the name is added, removed or changed |
| ApiBase.ItemToDict | bluesky_queueserver_api/api_base.py:266-269 | accepts exactly a `BItem` (its `to_dict()`) or a mapping (a copy); anything else is a `TypeError` |
| ApiBase.Api.constructor | bluesky_queueserver_api/api_base.py:164-190 | status timestamp `None`, default user and group, every cache empty with a `None` uid |
| ApiBase.Api.SetUser | bluesky_queueserver_api/api_base.py:207-210 | a valid name becomes the user; a rejected one leaves the user unchanged and reports `_check_name`'s error |
| ApiBase.Api.SetUserGroup | bluesky_queueserver_api/api_base.py:222-225 | the same for the user group |
| ApiBase.Api.ClearStatusTimestamp | bluesky_queueserver_api/api_base.py:234-238 | the status timestamp becomes `None` |
| ApiBase.Api.UserGroupForAllowedPlansDevices | bluesky_queueserver_api/api_base.py:240-248 | as written: the given group if truthy, else the default group, whatever the protocol |
| ApiBase.Api.UserGroupForAllowedPlansDevicesIntended | bluesky_queueserver_api/api_base.py:240-248 | the given or default group when user information is passed, the placeholder `"http"` otherwise |
| ApiBase.AllowedGroupIgnoresProtocol | bluesky_queueserver_api/api_base.py:240-248 | for an HTTP client with no group given, the as-written code returns the default group where the intended code returns `"http"` |
| ApiBase.AllowedGroupAgreesWhenPassingUserInfo | bluesky_queueserver_api/api_base.py:240-248 | when user information is passed, the as-written and the intended code agree |
| ApiBase.Api.AddUserInfo | bluesky_queueserver_api/api_base.py:250-253 | when user information is passed, adds `user` and `user_group`, each falling back to the default when false; otherwise adds nothing; existing keys keep their values |
| ApiBase.Api.AddPositionParams | bluesky_queueserver_api/api_base.py:272-274 | adds each of `pos`, `before_uid` and `after_uid` that is not `None`, and nothing else |
| ApiBase.Api.PrepareItemAdd | bluesky_queueserver_api/api_base.py:262-276 | a non-item raises the `TypeError`; otherwise the item's dict, exactly the non-`None` position arguments and the user information, and no other key |
| ApiBase.Api.FindBadItem | bluesky_queueserver_api/api_base.py:285-289 | finds nothing exactly when every element is a `BItem` or a mapping; otherwise the index of the first element that is neither |
| ApiBase.Api.ItemDicts | bluesky_queueserver_api/api_base.py:291 | one dict per element, in order, each the element's `to_dict()` or a copy of the mapping |
| ApiBase.Api.PrepareItemAddBatch | bluesky_queueserver_api/api_base.py:278-298 | a non-iterable raises `TypeError`; the first bad element is reported with its index before anything is converted; otherwise every element's dict in order, the position arguments and the user information |
| ApiBase.Api.PrepareItemUpdate | bluesky_queueserver_api/api_base.py:300-312 | item dict, optional `replace`, user information, no other key; `TypeError` for a non-item |
| ApiBase.Api.PrepareItemMove | bluesky_queueserver_api/api_base.py:314-325 | exactly the non-`None` arguments among `pos`, `uid`, `pos_dest`, `before_uid` and `after_uid` |
| ApiBase.Api.PrepareItemMoveBatch | bluesky_queueserver_api/api_base.py:327-338 | exactly the non-`None` arguments among `uids`, `pos_dest`, `before_uid`, `after_uid` and `reorder` |
| ApiBase.Api.PrepareItemGetRemove | bluesky_queueserver_api/api_base.py:340-347 | exactly the non-`None` arguments among `pos` and `uid` |
| ApiBase.Api.PrepareItemRemoveBatch | bluesky_queueserver_api/api_base.py:349-355 | `uids` always, even when `None`; `ignore_missing` when not `None` |
| ApiBase.Api.PrepareItemExecute | bluesky_queueserver_api/api_base.py:357-368 | item dict and user information, no other key; `TypeError` for a non-item |
| ApiBase.Api.PrepareQueueModeSet | bluesky_queueserver_api/api_base.py:370-378 | only `mode`: the explicit `mode` argument if given, otherwise all the keyword arguments |
| ApiBase.Api.PreparePlansDevicesAllowed | bluesky_queueserver_api/api_base.py:422-433 | never the user; the given or default group when user information is passed, nothing otherwise |
| ApiBase.Api.PreparePermissionsReload | bluesky_queueserver_api/api_base.py:525-532 | exactly the non-`None` arguments among the two restore flags |
| ApiBase.Api.PreparePermissionsSet | bluesky_queueserver_api/api_base.py:534-539 | only `user_group_permissions`, always |
| ApiBase.Api.PrepareScriptUpload | bluesky_queueserver_api/api_base.py:541-548 | `script` always, and the two flags when they are not `None` |
| ApiBase.Api.PrepareFunctionExecute | bluesky_queueserver_api/api_base.py:550-562 | item dict, optional `run_in_background`, user information; `TypeError` for a non-item |
| ApiBase.Api.PrepareTaskResult | bluesky_queueserver_api/api_base.py:564-569 | only `task_uid`, always |
| ApiBase.Api.PrepareRePause | bluesky_queueserver_api/api_base.py:614-620 | `option` exactly when it is not `None` |
| ApiBase.Api.ProcessResponseQueueGet | bluesky_queueserver_api/api_base.py:380-387 | the queue cache and the raised error are those of `QueueGetUpdate` |
| ApiBase.Api.GenerateResponseQueueGet | bluesky_queueserver_api/api_base.py:389-400 | the response `GenerateQueueGet` gives for the current cache |
| ApiBase.Api.UpdateData | bluesky_queueserver_api/api_base.py:402-408 | copies the data key, then the uid key, stopping at the first missing key, as `DataUpdate` says |
| ApiBase.Api.ProcessResponseHistoryGet | bluesky_queueserver_api/api_base.py:402-408 | the history cache follows `DataUpdate` with `items` and `plan_history_uid` |
| ApiBase.Api.GenerateResponseHistoryGet | bluesky_queueserver_api/api_base.py:410-420 | the response `GenerateData` gives for the history cache |
| ApiBase.Api.ProcessResponsePlansExisting | bluesky_queueserver_api/api_base.py:485-491 | the existing-plans cache follows `DataUpdate` |
| ApiBase.Api.GenerateResponsePlansExisting | bluesky_queueserver_api/api_base.py:493-503 | the response `GenerateData` gives for the existing plans |
| ApiBase.Api.ProcessResponseDevicesExisting | bluesky_queueserver_api/api_base.py:505-511 | the existing-devices cache follows `DataUpdate` |
| ApiBase.Api.GenerateResponseDevicesExisting | bluesky_queueserver_api/api_base.py:513-523 | the response `GenerateData` gives for the existing devices |
| ApiBase.Api.InvalidatePlansAllowedCache | bluesky_queueserver_api/api_base.py:435-436 | every group's entry is dropped; the uid is kept |
| ApiBase.Api.ProcessResponsePlansAllowed | bluesky_queueserver_api/api_base.py:438-446 | the allowed-plans cache and the raised error are those of `AllowedUpdate` |
| ApiBase.Api.GenerateResponsePlansAllowed | bluesky_queueserver_api/api_base.py:448-458 | the response or `KeyError` that `GenerateAllowed` gives |
| ApiBase.Api.InvalidateDevicesAllowedCache | bluesky_queueserver_api/api_base.py:460-461 | every group's entry is dropped; the uid is kept |
| ApiBase.Api.ProcessResponseDevicesAllowed | bluesky_queueserver_api/api_base.py:463-471 | the allowed-devices cache and the raised error are those of `AllowedUpdate` |
| ApiBase.Api.GenerateResponseDevicesAllowed | bluesky_queueserver_api/api_base.py:473-483 | the response or `KeyError` that `GenerateAllowed` gives |
| ApiBase.Api.ProcessResponseReRuns | bluesky_queueserver_api/api_base.py:580-588 | the run cache and the returned response or error are those of `ReRunsUpdate` |
| ApiBase.Api.GenerateResponseReRuns | bluesky_queueserver_api/api_base.py:602-612 | the response or error that `GenerateReRuns` gives |

## Left out

- Networking: the 0MQ and HTTP clients, `_create_client`, sockets, encryption keys, and
  `_process_response` (`raise_for_status()` and `.json()`). A transport condition enters
  the model as a `CommCondition` value. A response enters it as an `HttpResponse` value
  whose body is already decoded.
- Environment variables (`QSERVER_ZMQ_CONTROL_ADDRESS`, `QSERVER_HTTP_SERVER_URI` and
  others) and the default addresses and timeouts of the transport constructors. They
  only feed the networking.
- `set_user_name_to_login_name`: the login name comes from the operating system
  (`getpass`). Given a name, it is `SetUser`.
- The console monitor (`console_monitor`, `_init_console_monitor`) and the wait and
  polling loops that write `WaitMonitor`'s times. The time fields are stored, but
  nothing that writes them is modelled.
- WaitMonitor.Cancel: runs as one uninterrupted step, and its callbacks can neither
  touch the monitor nor escape the handler. Three source behaviours fall outside it:
  - A callback that raises a `BaseException` that is not an `Exception`
    (`KeyboardInterrupt`, `SystemExit`, `asyncio.CancelledError`) is not caught. The
    loop stops there, the list is not cleared and the monitor is not marked cancelled.
  - The class has no lock. A callback that another thread adds after the loop ends, but
    before the list is replaced, is dropped without running. No sequential order of
    `AddCancelCallback` and `Cancel` gives that result.
  - A callback that itself calls `cancel()` makes callbacks run twice.
- `WaitTimeoutError`, `WaitCancelError` and `Protocols` are only declared in the
  source. Only the protocol values are modelled.
- `_status_current` and `_status_exception` are only initialised in this core, so they
  are not modelled.
- `copy.deepcopy`: values are immutable here, so a copy cannot alias the cache.
- SelectReRunsItems: for `'open'` and `'closed'` the source returns the cache's own run
  dicts without a deep copy, so the returned response shares them with the cache. Values
  are immutable here, so that aliasing is not modelled.
- ProcessResponseReRuns: the source rewrites `response["run_list"]` in the caller's dict
  and returns that dict; the model returns a new map, so the change to the caller's dict
  is not modelled.
- ItemsArg: `_prepare_item_add_batch` iterates `items` twice. A one-shot iterator such
  as a generator passes the check and is then empty, so `"items": []` is sent. The model
  takes `items` as a sequence that can be read again, so this case is not modelled.
- `Repr`: a dict is rendered as `{...}`, because dict key order is not modelled. Floats
  are not modelled. Non-ASCII characters are not escaped in `repr()`.
- `ItemToDict` and `ItemsArg`: what `BItem.to_dict()` returns is given, because
  `item.py` is not part of this model. Which Python values are iterable is decided by
  the caller: a string or a dict passed as `items` must be given as its elements.
- Group keys of the allowed caches are strings; other hashable keys are not modelled.
- `AddRequestParam` returns a new dict instead of updating the caller's dict in place.
  No builder shares its dict, so the difference is not observable.
- HttpCommException: an httpx `Response` is taken to be truthy whenever it is present.
  The body enters already decoded, so the decode error that `exc.response.json()`
  raises on a body that is not JSON is not modelled.

## Findings

| source | as written | input that shows it | evidently intended | confidence | as-written member | corrected member |
|---|---|---|---|---|---|---|
| bluesky_queueserver_api/api_base.py:244 | `if self._add_request_param:` tests a bound method, which is always true, so the `"http"` branch is never taken | an HTTP client (user information not passed) calling with `user_group=None` gets its default group instead of `"http"` | `if self._pass_user_info:` | high, not executed | ApiBase.AllowedGroupIgnoresProtocol | ApiBase.Api.UserGroupForAllowedPlansDevicesIntended |
| bluesky_queueserver_api/comm_base.py:287 | `raise self.ClientError(exc)` calls `httpx.HTTPStatusError.__init__` without its required keyword-only `request` and `response` | an HTTP status error with a 503 response: a `TypeError` is raised instead of `ClientError` | a `ClientError` carrying the exception's text, without request and response | medium (depends on the installed httpx), not executed | CommBase.ServerErrorRaisesTypeErrorAsWritten | CommBase.HttpCommException |
