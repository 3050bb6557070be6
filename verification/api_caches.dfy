/** The client-side caches of server data (queue, history, allowed and existing plans
    and devices, runs): how a response updates a cache, the response generated back
    from the cache, and the selection of runs by `is_open`. A response is a decoded
    dict; every `response[key]` on a missing key raises `KeyError`, and an update that
    raises half way keeps the fields it had already written. */
module ApiCaches {
  import opened Json
  import opened Errors

  /** `response["success"] is True`, defined when the key is present. */
  predicate SucceededWith(response: map<string, JSON>)
  {
    "success" in response && IsTrue(response["success"])
  }

  /** What a generated response always starts with. */
  const SuccessHeader: map<string, JSON> := map["success" := JBool(true), "msg" := JStr("")]

  // ---------------------------------------------------------------------------
  // Queue

  /** `_current_plan_queue`, `_current_running_item`, `_current_plan_queue_uid` */
  datatype QueueCache = QueueCache(items: JSON, runningItem: JSON, uid: JSON)

  const InitialQueueCache := QueueCache(JList([]), JMap(map[]), JNull)

  /** `_process_response_queue_get`: the new cache and the exception raised, if any.
      The three fields are copied in order, each from its own key. */
  function QueueGetUpdate(c: QueueCache, response: map<string, JSON>): (r: (QueueCache, Option<Failure>))
    ensures "success" !in response ==> r == (c, Some(KeyError("success")))
    ensures "success" in response && !IsTrue(response["success"]) ==> r == (c, None)
    ensures SucceededWith(response) && {"items", "running_item", "plan_queue_uid"} <= response.Keys
            ==> r == (QueueCache(response["items"], response["running_item"], response["plan_queue_uid"]), None)
    ensures SucceededWith(response) && "items" !in response ==> r == (c, Some(KeyError("items")))
    ensures SucceededWith(response) && "items" in response && "running_item" !in response
            ==> r == (c.(items := response["items"]), Some(KeyError("running_item")))
    ensures SucceededWith(response) && "items" in response && "running_item" in response
            && "plan_queue_uid" !in response
            ==> r == (c.(items := response["items"], runningItem := response["running_item"]),
                      Some(KeyError("plan_queue_uid")))
    ensures r.1.None? <==>
      "success" in response
      && (IsTrue(response["success"]) ==> {"items", "running_item", "plan_queue_uid"} <= response.Keys)
  {
    if "success" !in response then (c, Some(KeyError("success")))
    else if !IsTrue(response["success"]) then (c, None)
    else if "items" !in response then (c, Some(KeyError("items")))
    else
      var c1 := c.(items := response["items"]);
      if "running_item" !in response then (c1, Some(KeyError("running_item")))
      else
        var c2 := c1.(runningItem := response["running_item"]);
        if "plan_queue_uid" !in response then (c2, Some(KeyError("plan_queue_uid")))
        else (c2.(uid := response["plan_queue_uid"]), None)
  }

  /** `_generate_response_queue_get` */
  function GenerateQueueGet(c: QueueCache): (g: map<string, JSON>)
    ensures g.Keys == {"success", "msg", "plan_queue_uid", "running_item", "items"}
    ensures g["success"] == JBool(true) && g["msg"] == JStr("")
    ensures g["items"] == c.items && g["running_item"] == c.runningItem && g["plan_queue_uid"] == c.uid
  {
    SuccessHeader["plan_queue_uid" := c.uid]["running_item" := c.runningItem]["items" := c.items]
  }

  /** After a complete successful `queue_get`, the generated response reproduces the
      queue, the running item and the uid the server sent. */
  lemma QueueGetRoundTrip(c: QueueCache, response: map<string, JSON>)
    requires SucceededWith(response)
    requires {"items", "running_item", "plan_queue_uid"} <= response.Keys
    ensures var g := GenerateQueueGet(QueueGetUpdate(c, response).0);
            forall k :: k in {"items", "running_item", "plan_queue_uid"} ==> g[k] == response[k]
  {
  }

  // ---------------------------------------------------------------------------
  // History, existing plans and devices, runs: one data field and one uid

  /** `(_current_plan_history, _current_plan_history_uid)` and the three caches of the
      same shape: existing plans, existing devices, and the run list. */
  datatype DataCache = DataCache(data: JSON, uid: JSON)

  const InitialHistoryCache := DataCache(JList([]), JNull)
  const InitialExistingCache := DataCache(JMap(map[]), JNull)
  const InitialRunsCache := DataCache(JList([]), JNull)

  /** `_process_response_history_get`, `_process_response_plans_existing`,
      `_process_response_devices_existing` and the first half of
      `_process_response_re_runs`: copy `dataKey`, then `uidKey`. */
  function DataUpdate(c: DataCache, response: map<string, JSON>, dataKey: string, uidKey: string)
    : (r: (DataCache, Option<Failure>))
    ensures !SucceededWith(response) ==> r.0 == c
    ensures "success" !in response <==> r.1 == Some(KeyError("success"))
    ensures SucceededWith(response) && dataKey in response && uidKey in response
            ==> r == (DataCache(response[dataKey], response[uidKey]), None)
    ensures SucceededWith(response) && dataKey !in response ==> r == (c, Some(KeyError(dataKey)))
    ensures SucceededWith(response) && dataKey in response && uidKey !in response
            ==> r == (c.(data := response[dataKey]), Some(KeyError(uidKey)))
    ensures r.1.None? <==>
      "success" in response && (IsTrue(response["success"]) ==> dataKey in response && uidKey in response)
  {
    if "success" !in response then (c, Some(KeyError("success")))
    else if !IsTrue(response["success"]) then (c, None)
    else if dataKey !in response then (c, Some(KeyError(dataKey)))
    else
      var c1 := c.(data := response[dataKey]);
      if uidKey !in response then (c1, Some(KeyError(uidKey)))
      else (c1.(uid := response[uidKey]), None)
  }

  /** `_generate_response_history_get`, `_generate_response_plans_existing`,
      `_generate_response_devices_existing` */
  function GenerateData(c: DataCache, dataKey: string, uidKey: string): (g: map<string, JSON>)
    requires dataKey !in {"success", "msg"} && uidKey !in {"success", "msg"} && dataKey != uidKey
    ensures g.Keys == {"success", "msg", dataKey, uidKey}
    ensures g["success"] == JBool(true) && g["msg"] == JStr("")
    ensures g[dataKey] == c.data && g[uidKey] == c.uid
  {
    SuccessHeader[uidKey := c.uid][dataKey := c.data]
  }

  /** After a complete successful update, the generated response reproduces the data
      and uid the server sent; an unsuccessful response leaves the generated response
      as it was. */
  lemma DataRoundTrip(c: DataCache, response: map<string, JSON>, dataKey: string, uidKey: string)
    requires dataKey !in {"success", "msg"} && uidKey !in {"success", "msg"} && dataKey != uidKey
    ensures SucceededWith(response) && dataKey in response && uidKey in response ==>
            var g := GenerateData(DataUpdate(c, response, dataKey, uidKey).0, dataKey, uidKey);
            g[dataKey] == response[dataKey] && g[uidKey] == response[uidKey]
    ensures !SucceededWith(response) ==>
            GenerateData(DataUpdate(c, response, dataKey, uidKey).0, dataKey, uidKey)
            == GenerateData(c, dataKey, uidKey)
  {
  }

  // ---------------------------------------------------------------------------
  // Allowed plans and devices: one entry per user group, invalidated with the uid

  /** `(_current_plans_allowed, _current_plans_allowed_uid)`, and the same for devices */
  datatype AllowedCache = AllowedCache(byGroup: map<string, JSON>, uid: JSON)

  const InitialAllowedCache := AllowedCache(map[], JNull)

  /** `_process_response_plans_allowed` and `_process_response_devices_allowed`: a uid
      that differs (by Python `!=`) from the cached one clears every group and is
      stored; then the group's entry is set. */
  function AllowedUpdate(c: AllowedCache, response: map<string, JSON>, uidKey: string, dataKey: string,
                         group: string): (r: (AllowedCache, Option<Failure>))
    ensures !SucceededWith(response) ==> r.0 == c
    ensures "success" !in response <==> r.1 == Some(KeyError("success"))
    ensures SucceededWith(response) && uidKey !in response ==> r == (c, Some(KeyError(uidKey)))
    ensures SucceededWith(response) && uidKey in response && dataKey !in response ==>
      r == (if PyEq(response[uidKey], c.uid) then c else AllowedCache(map[], response[uidKey]),
            Some(KeyError(dataKey)))
    ensures r.1.None? <==>
      "success" in response && (IsTrue(response["success"]) ==> uidKey in response && dataKey in response)
    ensures SucceededWith(response) && uidKey in response && dataKey in response ==>
      && r.0.byGroup.Keys == (if PyEq(response[uidKey], c.uid) then c.byGroup.Keys + {group} else {group})
      && r.0.byGroup[group] == response[dataKey]
      && r.0.uid == (if PyEq(response[uidKey], c.uid) then c.uid else response[uidKey])
  {
    if "success" !in response then (c, Some(KeyError("success")))
    else if !IsTrue(response["success"]) then (c, None)
    else if uidKey !in response then (c, Some(KeyError(uidKey)))
    else
      var c1 := if !PyEq(response[uidKey], c.uid) then AllowedCache(map[], response[uidKey]) else c;
      if dataKey !in response then (c1, Some(KeyError(dataKey)))
      else (c1.(byGroup := c1.byGroup[group := response[dataKey]]), None)
  }

  /** `_generate_response_plans_allowed` and `_generate_response_devices_allowed`: a
      group with no entry raises `KeyError`. */
  function GenerateAllowed(c: AllowedCache, uidKey: string, dataKey: string, group: string)
    : (r: Result<map<string, JSON>>)
    requires dataKey !in {"success", "msg"} && uidKey !in {"success", "msg"} && dataKey != uidKey
    ensures r.Ok? <==> group in c.byGroup
    ensures r.Err? ==> r.error == KeyError(group)
    ensures r.Ok? ==> r.value.Keys == {"success", "msg", uidKey, dataKey}
                      && r.value["success"] == JBool(true) && r.value["msg"] == JStr("")
                      && r.value[uidKey] == c.uid && r.value[dataKey] == c.byGroup[group]
  {
    if group in c.byGroup then Ok(SuccessHeader[uidKey := c.uid][dataKey := c.byGroup[group]])
    else Err(KeyError(group))
  }

  /** A response whose uid equals the cached one keeps the entries of the other groups. */
  lemma AllowedSameUidKeepsOtherGroups(c: AllowedCache, response: map<string, JSON>,
                                       uidKey: string, dataKey: string, group: string)
    requires SucceededWith(response) && uidKey in response && dataKey in response
    requires PyEq(response[uidKey], c.uid)
    ensures AllowedUpdate(c, response, uidKey, dataKey, group)
            == (c.(byGroup := c.byGroup[group := response[dataKey]]), None)
  {
  }

  /** A response with a new uid drops every other group. */
  lemma AllowedNewUidClearsOtherGroups(c: AllowedCache, response: map<string, JSON>,
                                       uidKey: string, dataKey: string, group: string)
    requires SucceededWith(response) && uidKey in response && dataKey in response
    requires !PyEq(response[uidKey], c.uid)
    ensures AllowedUpdate(c, response, uidKey, dataKey, group)
            == (AllowedCache(map[group := response[dataKey]], response[uidKey]), None)
  {
  }

  /** After a complete successful update for `group`, generating the response for that
      group gives back the data the server sent and a uid equal (by Python `==`) to the
      one it sent. */
  lemma {:induction false} AllowedRoundTrip(c: AllowedCache, response: map<string, JSON>,
                                            uidKey: string, dataKey: string, group: string)
    requires dataKey !in {"success", "msg"} && uidKey !in {"success", "msg"} && dataKey != uidKey
    requires SucceededWith(response) && uidKey in response && dataKey in response
    ensures var g := GenerateAllowed(AllowedUpdate(c, response, uidKey, dataKey, group).0, uidKey, dataKey, group);
            g.Ok? && g.value[dataKey] == response[dataKey] && PyEq(g.value[uidKey], response[uidKey])
  {
    if PyEq(response[uidKey], c.uid) {
      PyEqSymmetric(response[uidKey], c.uid);
    } else {
      PyEqReflexive(response[uidKey]);
    }
  }

  // ---------------------------------------------------------------------------
  // Runs

  /** The options `re_runs` accepts. */
  predicate IsReRunsOption(option: JSON)
  {
    option == JNull || option == JStr("active") || option == JStr("open") || option == JStr("closed")
  }

  /** `_verify_options_re_runs`: `Some(error)` is the exception raised. */
  function VerifyReRunsOption(option: JSON): (r: Option<Failure>)
    ensures r.None? <==> IsReRunsOption(option)
    ensures r.Some? ==> r.value.IndexError?
  {
    if IsReRunsOption(option) then None
    else Some(IndexError("Unsupported option " + Repr(option)
                         + ". Supported options: (None, 'active', 'open', 'closed')"))
  }

  /** A run whose `is_open` can be read. */
  predicate HasOpenFlag(run: JSON)
  {
    run.JMap? && "is_open" in run.fields
  }

  /** `run["is_open"]` is true. */
  predicate IsOpen(run: JSON)
    requires HasOpenFlag(run)
  {
    Truthy(run.fields["is_open"])
  }

  /** `[_ for _ in items if _["is_open"]]` (for `wantOpen`) and
      `[_ for _ in items if not _["is_open"]]` (otherwise): the first run whose
      `is_open` cannot be read raises. */
  function FilterRuns(items: seq<JSON>, wantOpen: bool): (r: Result<seq<JSON>>)
    ensures r.Ok? ==> |r.value| <= |items|
    ensures r.Err? ==> r.error == KeyError("is_open") || r.error.TypeError?
  {
    if items == [] then Ok([])
    else
      match Subscript(items[0], "is_open")
      case Err(e) => Err(e)
      case Ok(flag) =>
        match FilterRuns(items[1..], wantOpen)
        case Err(e) => Err(e)
        case Ok(rest) => Ok(if Truthy(flag) == wantOpen then [items[0]] + rest else rest)
  }

  /** The filter succeeds exactly when every run has an `is_open` key; then it keeps
      exactly the runs whose flag matches. */
  lemma {:induction false} FilterRunsSpec(items: seq<JSON>, wantOpen: bool)
    ensures FilterRuns(items, wantOpen).Ok? <==> forall k :: 0 <= k < |items| ==> HasOpenFlag(items[k])
    ensures FilterRuns(items, wantOpen).Ok? ==>
      var out := FilterRuns(items, wantOpen).value;
      && (forall x :: x in out ==> x in items && HasOpenFlag(x) && IsOpen(x) == wantOpen)
      && (forall k :: 0 <= k < |items| && IsOpen(items[k]) == wantOpen ==> items[k] in out)
  {
    if items != [] {
      FilterRunsSpec(items[1..], wantOpen);
      if HasOpenFlag(items[0]) && FilterRuns(items[1..], wantOpen).Ok? {
        forall k | 0 <= k < |items| && IsOpen(items[k]) == wantOpen
          ensures items[k] in FilterRuns(items, wantOpen).value
        {
          if k > 0 {
            assert items[k] == items[1..][k - 1];
          }
        }
      }
      if !HasOpenFlag(items[0]) {
        assert !(forall k :: 0 <= k < |items| ==> HasOpenFlag(items[k]));
      }
      if FilterRuns(items[1..], wantOpen).Err? {
        var k :| 0 <= k < |items[1..]| && !HasOpenFlag(items[1..][k]);
        assert !HasOpenFlag(items[k + 1]);
      }
    }
  }

  /** Filtering preserves order: the runs selected from `a + b` are those selected from
      `a` followed by those selected from `b`. */
  lemma {:induction false} FilterRunsConcat(a: seq<JSON>, b: seq<JSON>, wantOpen: bool)
    requires FilterRuns(a, wantOpen).Ok? && FilterRuns(b, wantOpen).Ok?
    ensures FilterRuns(a + b, wantOpen) == Ok(FilterRuns(a, wantOpen).value + FilterRuns(b, wantOpen).value)
  {
    var restB := FilterRuns(b, wantOpen).value;
    if a == [] {
      assert a + b == b;
      assert [] + restB == restB;
    } else {
      var tail := a[1..];
      var ab := a + b;
      assert ab[0] == a[0];
      assert ab[1..] == tail + b;
      FilterRunsConcat(tail, b, wantOpen);
      FilterRunsStep(a, wantOpen);
      FilterRunsStep(ab, wantOpen);
      var keep := Truthy(Subscript(a[0], "is_open").value) == wantOpen;
      ConsConcat(a[0], FilterRuns(tail, wantOpen).value, restB, keep);
    }
  }

  /** Putting a kept run in front commutes with appending the runs selected after it. */
  lemma ConsConcat(x: JSON, rest: seq<JSON>, restB: seq<JSON>, keep: bool)
    ensures (if keep then [x] + (rest + restB) else rest + restB) == (if keep then [x] + rest else rest) + restB
  {
  }

  /** One step of the filter on a run whose flag can be read, followed by runs that
      can all be filtered. */
  lemma FilterRunsStep(items: seq<JSON>, wantOpen: bool)
    requires items != [] && Subscript(items[0], "is_open").Ok? && FilterRuns(items[1..], wantOpen).Ok?
    ensures FilterRuns(items, wantOpen).Ok?
    ensures FilterRuns(items, wantOpen).value
            == (if Truthy(Subscript(items[0], "is_open").value) == wantOpen
                then [items[0]] + FilterRuns(items[1..], wantOpen).value
                else FilterRuns(items[1..], wantOpen).value)
  {
  }

  /** The open and the closed selections together hold every run exactly once. */
  lemma {:induction false} FilterRunsPartition(items: seq<JSON>)
    requires FilterRuns(items, true).Ok?
    ensures FilterRuns(items, false).Ok?
    ensures multiset(FilterRuns(items, true).value) + multiset(FilterRuns(items, false).value)
            == multiset(items)
  {
    if items != [] {
      FilterRunsPartition(items[1..]);
      assert items == [items[0]] + items[1..];
    }
  }

  /** The type error raised by `x["is_open"]` on the elements of a non-empty str or
      dict, which iterate as strings. */
  const StrIndexError: Failure := TypeError("string indices must be integers, not 'str'")

  /** The list comprehension over `_current_run_list`, whatever value it holds. */
  function FilterRunList(runList: JSON, wantOpen: bool): (r: Result<JSON>)
    ensures r.Ok? ==> r.value.JList?
    ensures runList.JList? ==> (r.Ok? <==> FilterRuns(runList.items, wantOpen).Ok?)
    ensures (runList.JMap? || runList.JStr?) ==> (r.Ok? <==> !Truthy(runList))
    ensures (runList.JMap? || runList.JStr?) && r.Ok? ==> r.value == JList([])
    ensures runList.JNull? || runList.JBool? || runList.JInt? ==> r.Err? && r.error.TypeError?
  {
    match runList
    case JList(xs) =>
      (match FilterRuns(xs, wantOpen)
       case Ok(out) => Ok(JList(out))
       case Err(e) => Err(e))
    case JMap(m) => if |m| == 0 then Ok(JList([])) else Err(StrIndexError)
    case JStr(s) => if s == "" then Ok(JList([])) else Err(StrIndexError)
    case JNull => Err(TypeError("'NoneType' object is not iterable"))
    case JBool(_) => Err(TypeError("'bool' object is not iterable"))
    case JInt(_) => Err(TypeError("'int' object is not iterable"))
  }

  /** `_select_re_runs_items`: the open runs for `"open"`, the others for `"closed"`,
      and the whole list for any other option. */
  function SelectReRunsItems(runList: JSON, option: JSON): (r: Result<JSON>)
    ensures option != JStr("open") && option != JStr("closed") ==> r == Ok(runList)
    ensures r.Ok? && (option == JStr("open") || option == JStr("closed")) ==> r.value.JList?
  {
    if option == JStr("open") then FilterRunList(runList, true)
    else if option == JStr("closed") then FilterRunList(runList, false)
    else Ok(runList)
  }

  /** For `"open"` (resp. `"closed"`) on a list of runs: the selection fails exactly when
      some run has no `is_open`; otherwise it holds every open (resp. non-open) run of
      the list and nothing else. */
  lemma SelectReRunsItemsSpec(runs: seq<JSON>, option: JSON)
    requires option == JStr("open") || option == JStr("closed")
    ensures var r := SelectReRunsItems(JList(runs), option);
      && (r.Ok? <==> forall k :: 0 <= k < |runs| ==> HasOpenFlag(runs[k]))
      && (r.Ok? ==>
          && (forall x :: x in r.value.items ==> x in runs && HasOpenFlag(x)
                                                 && IsOpen(x) == (option == JStr("open")))
          && (forall k :: 0 <= k < |runs| && IsOpen(runs[k]) == (option == JStr("open"))
                          ==> runs[k] in r.value.items))
  {
    FilterRunsSpec(runs, option == JStr("open"));
  }

  /** `_process_response_re_runs`: the run cache is updated like the other data caches;
      on success the returned response carries the selected runs instead of the full
      list. */
  function ReRunsUpdate(c: DataCache, response: map<string, JSON>, option: JSON)
    : (r: (DataCache, Result<map<string, JSON>>))
    ensures r.0 == DataUpdate(c, response, "run_list", "run_list_uid").0
    ensures DataUpdate(c, response, "run_list", "run_list_uid").1.Some? ==>
      r.1 == Err(DataUpdate(c, response, "run_list", "run_list_uid").1.value)
    ensures "success" in response && !IsTrue(response["success"]) ==> r.1 == Ok(response)
    ensures SucceededWith(response) && "run_list" in response && "run_list_uid" in response ==>
      && (r.1.Ok? <==> SelectReRunsItems(response["run_list"], option).Ok?)
      && (r.1.Err? ==> r.1.error == SelectReRunsItems(response["run_list"], option).error)
    ensures r.1.Ok? && SucceededWith(response) ==>
      && r.1.value.Keys == response.Keys
      && (forall k :: k in response && k != "run_list" ==> r.1.value[k] == response[k])
      && Ok(r.1.value["run_list"]) == SelectReRunsItems(response["run_list"], option)
  {
    var (c1, err) := DataUpdate(c, response, "run_list", "run_list_uid");
    if err.Some? then (c1, Err(err.value))
    else if !IsTrue(response["success"]) then (c1, Ok(response))
    else
      match SelectReRunsItems(c1.data, option)
      case Err(e) => (c1, Err(e))
      case Ok(selected) => (c1, Ok(response["run_list" := selected]))
  }

  /** `_generate_response_re_runs` */
  function GenerateReRuns(c: DataCache, option: JSON): (r: Result<map<string, JSON>>)
    ensures r.Ok? <==> SelectReRunsItems(c.data, option).Ok?
    ensures r.Ok? ==> r.value.Keys == {"success", "msg", "run_list_uid", "run_list"}
                      && r.value["success"] == JBool(true) && r.value["msg"] == JStr("")
                      && r.value["run_list_uid"] == c.uid
                      && Ok(r.value["run_list"]) == SelectReRunsItems(c.data, option)
  {
    match SelectReRunsItems(c.data, option)
    case Err(e) => Err(e)
    case Ok(selected) => Ok(SuccessHeader["run_list_uid" := c.uid]["run_list" := selected])
  }

  /** Asking the cache again with the same option gives the runs returned by the
      update that filled it. */
  lemma ReRunsRoundTrip(c: DataCache, response: map<string, JSON>, option: JSON)
    requires SucceededWith(response) && "run_list" in response && "run_list_uid" in response
    requires SelectReRunsItems(response["run_list"], option).Ok?
    ensures var (c1, r) := ReRunsUpdate(c, response, option);
            GenerateReRuns(c1, option).Ok?
            && GenerateReRuns(c1, option).value["run_list"] == r.value["run_list"]
            && GenerateReRuns(c1, option).value["run_list_uid"] == response["run_list_uid"]
  {
  }
}
