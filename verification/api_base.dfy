/** The client-side state of the API: the wait monitor that lets another thread or
    task cancel a wait, the default user name and group, the builders of request
    parameters, and the caches filled from responses (whose update rules live in
    `ApiCaches`). */
module ApiBase {
  import opened Json
  import opened Errors
  import opened ApiCaches
  import CommBase

  // ---------------------------------------------------------------------------
  // Wait monitor

  /** A cancel callback, known only by its identity. Whether it raises an `Exception`
      makes no difference to the monitor: the exception is swallowed. */
  datatype CancelCallback = CancelCallback(id: nat)

  /** `WaitMonitor`: the timeout of the current wait, whether it was cancelled, and the
      callbacks to run on cancellation. The ghost `invoked` records every callback run
      so far, in order. */
  class WaitMonitor {
    /** written by the polling loop, which is not part of this model */
    var timeStart: real
    var timeElapsed: real
    var timeout: real
    var cancelCallbacks: seq<CancelCallback>
    var waitCancelled: bool
    ghost var invoked: seq<CancelCallback>

    constructor ()
      ensures timeStart == 0.0 && timeElapsed == 0.0 && timeout == 0.0
      ensures cancelCallbacks == [] && !waitCancelled && invoked == []
    {
      timeStart, timeElapsed, timeout := 0.0, 0.0, 0.0;
      cancelCallbacks := [];
      waitCancelled := false;
      invoked := [];
    }

    /** `set_timeout` changes the timeout and nothing else. */
    method SetTimeout(t: real)
      modifies this`timeout
      ensures timeout == t
    {
      timeout := t;
    }

    /** `add_cancel_callback` */
    method AddCancelCallback(cb: CancelCallback)
      modifies this`cancelCallbacks
      ensures cancelCallbacks == old(cancelCallbacks) + [cb]
    {
      cancelCallbacks := cancelCallbacks + [cb];
    }

    /** `cancel`: every registered callback runs once, in registration order, even
        when an earlier one raised an `Exception`; then the list is emptied and the
        monitor is cancelled. A second `cancel` therefore runs nothing. */
    method Cancel()
      modifies this`cancelCallbacks, this`waitCancelled, this`invoked
      ensures invoked == old(invoked) + old(cancelCallbacks)
      ensures cancelCallbacks == [] && waitCancelled
      ensures old(cancelCallbacks) == [] ==> invoked == old(invoked)
    {
      for i := 0 to |cancelCallbacks|
        invariant invoked == old(invoked) + cancelCallbacks[..i]
      {
        // the callback runs; an `Exception` it raises is caught and ignored
        invoked := invoked + [cancelCallbacks[i]];
      }
      assert cancelCallbacks[..|cancelCallbacks|] == cancelCallbacks;
      cancelCallbacks := [];
      waitCancelled := true;
    }
  }

  // ---------------------------------------------------------------------------
  // Names and request parameters

  /** `_check_name`: `Some(error)` is the `ValueError` raised for a value that is not a
      non-empty string. */
  function CheckName(name: JSON, nameInMsg: string): (r: Option<Failure>)
    ensures r.None? <==> name.JStr? && name.s != ""
    ensures r.Some? ==> r.value.ValueError?
    ensures name.JStr? && name.s == "" ==> r == Some(ValueError(nameInMsg + " is an empty string."))
  {
    if !name.JStr? then
      Some(ValueError(nameInMsg + " " + Repr(name) + " is not a string: type " + TypeRepr(name)))
    else if name.s == "" then
      Some(ValueError(nameInMsg + " is an empty string."))
    else None
  }

  /** `_add_request_param`: `name` is set to `value` when the value is not `None`. */
  function AddRequestParam(params: map<string, JSON>, name: string, value: JSON): (r: map<string, JSON>)
    ensures value != JNull ==> name in r && r[name] == value
    ensures value == JNull ==> r == params
  {
    if value != JNull then params[name := value] else params
  }

  /** Adding one parameter leaves every other key as it was. */
  lemma AddRequestParamKeepsOthers(params: map<string, JSON>, name: string, value: JSON, other: string)
    requires other != name
    ensures other in AddRequestParam(params, name, value) <==> other in params
    ensures other in params ==> AddRequestParam(params, name, value)[other] == params[other]
  {
  }

  /** `name` is present exactly when `value` is not `None`, and then holds `value`. */
  predicate OptionalParam(params: map<string, JSON>, name: string, value: JSON)
  {
    (name in params <==> value != JNull) && (name in params ==> params[name] == value)
  }

  /** `x if x else default`, for a user or group name. */
  function OrDefault(v: JSON, default: string): JSON
  {
    if Truthy(v) then v else JStr(default)
  }

  /** An item given to a builder: a `BItem`, known by what its `to_dict()` returns, or
      any other value. */
  datatype ItemArg = BItem(asDict: map<string, JSON>) | Plain(value: JSON)

  predicate IsItemLike(item: ItemArg)
  {
    item.BItem? || item.value.JMap?
  }

  /** The `TypeError` raised for an item of the wrong type. */
  function ItemTypeError(v: JSON): Failure
  {
    TypeError("Incorrect item type " + TypeRepr(v) + ". Expected type: 'BItem' or 'dict'")
  }

  /** `item.to_dict()` for a `BItem`, a copy for a mapping, `TypeError` otherwise. */
  function ItemToDict(item: ItemArg): (r: Result<map<string, JSON>>)
    ensures r.Ok? <==> IsItemLike(item)
    ensures r.Ok? && item.BItem? ==> r.value == item.asDict
    ensures r.Ok? && item.Plain? ==> r.value == item.value.fields
    ensures r.Err? ==> item.Plain? && r.error == ItemTypeError(item.value)
  {
    if item.BItem? then Ok(item.asDict)
    else if item.value.JMap? then Ok(item.value.fields)
    else Err(ItemTypeError(item.value))
  }

  /** The `items` of a batch: what iterating it yields, or a value that cannot be
      iterated (None, a bool, an int). */
  datatype ItemsArg = Elements(elements: seq<ItemArg>) | NotIterable(value: JSON)

  /** The `TypeError` for item number `n` of a batch. */
  function BatchItemError(n: nat, v: JSON): Failure
  {
    TypeError("Incorrect type " + TypeRepr(v) + " if item #" + IntToDecimal(n) + " (" + Repr(v)
              + "). Expected type: 'BItem' or 'dict'")
  }

  /** `n` is the first item of `els` that is neither a `BItem` nor a mapping. */
  predicate FirstBadItem(els: seq<ItemArg>, n: int)
  {
    0 <= n < |els| && !IsItemLike(els[n]) && forall j :: 0 <= j < n ==> IsItemLike(els[j])
  }

  /** The keys that give the position of an added item or batch. */
  const PositionKeys: set<string> := {"pos", "before_uid", "after_uid"}

  /** The user information sent over 0MQ. */
  const UserKeys: set<string> := {"user", "user_group"}

  /** `out` is the list of the dicts of `els`, in order. */
  predicate ConvertedItems(out: JSON, els: seq<ItemArg>)
  {
    && out.JList? && |out.items| == |els|
    && forall k :: 0 <= k < |els| ==> IsItemLike(els[k]) && out.items[k] == JMap(ItemToDict(els[k]).value)
  }

  // ---------------------------------------------------------------------------
  // The API state

  class Api {
    /** the communication layer this API is mixed with (it owns `_pass_user_info`) */
    const comm: CommBase.ReManagerApi

    var statusExpirationPeriod: real
    var statusPollingPeriod: real
    /** `_status_timestamp`: `None` forces a reload of the status on the next request */
    var statusTimestamp: Option<real>

    var user: string
    var userGroup: string

    var queue: QueueCache
    var history: DataCache
    var plansAllowed: AllowedCache
    var devicesAllowed: AllowedCache
    var plansExisting: DataCache
    var devicesExisting: DataCache
    var runs: DataCache

    /** `API_Base.__init__` */
    constructor (comm: CommBase.ReManagerApi, statusExpirationPeriod: real, statusPollingPeriod: real)
      ensures this.comm == comm
      ensures this.statusExpirationPeriod == statusExpirationPeriod
      ensures this.statusPollingPeriod == statusPollingPeriod
      ensures statusTimestamp == None
      ensures user == "Queue Server API User" && userGroup == "admin"
      ensures queue == InitialQueueCache && history == InitialHistoryCache
      ensures plansAllowed == InitialAllowedCache && devicesAllowed == InitialAllowedCache
      ensures plansExisting == InitialExistingCache && devicesExisting == InitialExistingCache
      ensures runs == InitialRunsCache
    {
      this.comm := comm;
      this.statusExpirationPeriod := statusExpirationPeriod;
      this.statusPollingPeriod := statusPollingPeriod;
      statusTimestamp := None;
      user := "Queue Server API User";
      userGroup := "admin";
      queue := InitialQueueCache;
      history := InitialHistoryCache;
      plansAllowed := InitialAllowedCache;
      devicesAllowed := InitialAllowedCache;
      plansExisting := InitialExistingCache;
      devicesExisting := InitialExistingCache;
      runs := InitialRunsCache;
    }

    /** The `user` setter: a rejected name leaves the user unchanged. */
    method SetUser(name: JSON) returns (err: Option<Failure>)
      modifies this`user
      ensures err == CheckName(name, "User name")
      ensures err.None? ==> user == name.s
      ensures err.Some? ==> user == old(user)
    {
      err := CheckName(name, "User name");
      if err.None? {
        user := name.s;
      }
    }

    /** The `user_group` setter: a rejected name leaves the group unchanged. */
    method SetUserGroup(name: JSON) returns (err: Option<Failure>)
      modifies this`userGroup
      ensures err == CheckName(name, "User group name")
      ensures err.None? ==> userGroup == name.s
      ensures err.Some? ==> userGroup == old(userGroup)
    {
      err := CheckName(name, "User group name");
      if err.None? {
        userGroup := name.s;
      }
    }

    /** `_clear_status_timestamp` */
    method ClearStatusTimestamp()
      modifies this`statusTimestamp
      ensures statusTimestamp == None
    {
      statusTimestamp := None;
    }

    /** `_get_user_group_for_allowed_plans_devices` as written: it tests the bound
        method `self._add_request_param`, which is always true, so the `"http"` branch
        is never taken. */
    function UserGroupForAllowedPlansDevices(group: JSON): (r: JSON)
      reads this
      ensures Truthy(group) ==> r == group
      ensures !Truthy(group) ==> r == JStr(userGroup)
    {
      // `if self._add_request_param:` holds for every instance
      OrDefault(group, userGroup)
    }

    /** `_get_user_group_for_allowed_plans_devices` as evidently intended: a client that
        does not pass user information (HTTP) uses the placeholder group `"http"`. */
    function UserGroupForAllowedPlansDevicesIntended(group: JSON): (r: JSON)
      reads this, comm
      ensures comm.passUserInfo ==> r == OrDefault(group, userGroup)
      ensures !comm.passUserInfo ==> r == JStr("http")
    {
      if comm.passUserInfo then OrDefault(group, userGroup) else JStr("http")
    }

    /** `user_group` and the added parameters agree with `_request_params_add_user_info`. */
    predicate HasUserInfo(params: map<string, JSON>, userArg: JSON, groupArg: JSON)
      reads this, comm
    {
      if comm.passUserInfo then
        && "user" in params && params["user"] == OrDefault(userArg, user)
        && "user_group" in params && params["user_group"] == OrDefault(groupArg, userGroup)
      else
        "user" !in params && "user_group" !in params
    }

    /** The keys `_request_params_add_user_info` adds. */
    function UserInfoKeys(): (keys: set<string>)
      reads comm
      ensures keys <= UserKeys
    {
      if comm.passUserInfo then UserKeys else {}
    }

    /** `_request_params_add_user_info`: user and group, falling back to the defaults
        when the arguments are false, only when user information is passed. */
    function AddUserInfo(params: map<string, JSON>, userArg: JSON, groupArg: JSON): (r: map<string, JSON>)
      reads this, comm
      requires "user" !in params && "user_group" !in params
      ensures HasUserInfo(r, userArg, groupArg)
      ensures r.Keys == params.Keys + UserInfoKeys()
      ensures forall k :: k in params ==> r[k] == params[k]
    {
      if comm.passUserInfo then
        params["user" := OrDefault(userArg, user)]["user_group" := OrDefault(groupArg, userGroup)]
      else params
    }

    /** A parameter set before the user information is added keeps its value. */
    lemma AddUserInfoKeeps(params: map<string, JSON>, name: string, value: JSON, userArg: JSON, groupArg: JSON)
      requires "user" !in params && "user_group" !in params
      requires name !in UserKeys && OptionalParam(params, name, value)
      ensures OptionalParam(AddUserInfo(params, userArg, groupArg), name, value)
    {
    }

    /** The optional position of an added item or batch. */
    static function AddPositionParams(params: map<string, JSON>, pos: JSON, beforeUid: JSON, afterUid: JSON)
      : (r: map<string, JSON>)
      ensures r.Keys <= params.Keys + PositionKeys
      ensures forall k :: k in params && k !in PositionKeys ==> k in r && r[k] == params[k]
      ensures "pos" !in params ==> OptionalParam(r, "pos", pos)
      ensures "before_uid" !in params ==> OptionalParam(r, "before_uid", beforeUid)
      ensures "after_uid" !in params ==> OptionalParam(r, "after_uid", afterUid)
    {
      AddRequestParam(AddRequestParam(AddRequestParam(params, "pos", pos), "before_uid", beforeUid),
                      "after_uid", afterUid)
    }

    /** `_prepare_item_add` */
    method PrepareItemAdd(item: ItemArg, pos: JSON, beforeUid: JSON, afterUid: JSON,
                          userArg: JSON, groupArg: JSON) returns (r: Result<map<string, JSON>>)
      ensures r.Ok? <==> IsItemLike(item)
      ensures r.Err? ==> r.error == ItemTypeError(item.value)
      ensures r.Ok? ==>
        && r.value.Keys <= {"item"} + PositionKeys + UserKeys
        && "item" in r.value && r.value["item"] == JMap(ItemToDict(item).value)
        && OptionalParam(r.value, "pos", pos)
        && OptionalParam(r.value, "before_uid", beforeUid)
        && OptionalParam(r.value, "after_uid", afterUid)
        && HasUserInfo(r.value, userArg, groupArg)
    {
      if !IsItemLike(item) {
        return Err(ItemTypeError(item.value));
      }
      var dict := ItemToDict(item);
      var params := map["item" := JMap(dict.value)];
      params := AddPositionParams(params, pos, beforeUid, afterUid);
      assert params.Keys <= {"item"} + PositionKeys;
      var placed := params;
      params := AddUserInfo(params, userArg, groupArg);
      AddUserInfoKeeps(placed, "pos", pos, userArg, groupArg);
      AddUserInfoKeeps(placed, "before_uid", beforeUid, userArg, groupArg);
      AddUserInfoKeeps(placed, "after_uid", afterUid, userArg, groupArg);
      r := Ok(params);
    }

    /** The check loop of `_prepare_item_add_batch`: the index of the first element that
        is neither a `BItem` nor a mapping, if there is one. */
    static method FindBadItem(els: seq<ItemArg>) returns (bad: Option<nat>)
      ensures bad.None? <==> forall j :: 0 <= j < |els| ==> IsItemLike(els[j])
      ensures bad.Some? ==> FirstBadItem(els, bad.value)
    {
      var n := 0;
      while n < |els|
        invariant 0 <= n <= |els|
        invariant forall j :: 0 <= j < n ==> IsItemLike(els[j])
      {
        if !IsItemLike(els[n]) {
          return Some(n);
        }
        n := n + 1;
      }
      return None;
    }

    /** `[_.to_dict() if isinstance(_, BItem) else dict(_).copy() for _ in items]` */
    static method ItemDicts(els: seq<ItemArg>) returns (dicts: seq<JSON>)
      requires forall j :: 0 <= j < |els| ==> IsItemLike(els[j])
      ensures ConvertedItems(JList(dicts), els)
    {
      dicts := [];
      for k := 0 to |els|
        invariant |dicts| == k
        invariant forall j :: 0 <= j < k ==> dicts[j] == JMap(ItemToDict(els[j]).value)
      {
        dicts := dicts + [JMap(ItemToDict(els[k]).value)];
      }
    }

    /** `_prepare_item_add_batch`: every element is checked before any is converted;
        the first bad one is reported with its index. */
    method PrepareItemAddBatch(items: ItemsArg, pos: JSON, beforeUid: JSON, afterUid: JSON,
                               userArg: JSON, groupArg: JSON) returns (r: Result<map<string, JSON>>)
      ensures items.NotIterable? ==>
        r == Err(TypeError("Parameter ``items`` must be iterable: type(items)=" + TypeRepr(items.value)))
      ensures items.Elements? ==>
        (r.Ok? <==> forall k :: 0 <= k < |items.elements| ==> IsItemLike(items.elements[k]))
      ensures items.Elements? && r.Err? ==>
        exists n :: FirstBadItem(items.elements, n) && r.error == BatchItemError(n, items.elements[n].value)
      ensures r.Ok? ==>
        && r.value.Keys <= {"items"} + PositionKeys + UserKeys
        && "items" in r.value && ConvertedItems(r.value["items"], items.elements)
        && OptionalParam(r.value, "pos", pos)
        && OptionalParam(r.value, "before_uid", beforeUid)
        && OptionalParam(r.value, "after_uid", afterUid)
        && HasUserInfo(r.value, userArg, groupArg)
    {
      if items.NotIterable? {
        return Err(TypeError("Parameter ``items`` must be iterable: type(items)=" + TypeRepr(items.value)));
      }
      var els := items.elements;
      var bad := FindBadItem(els);
      if bad.Some? {
        return Err(BatchItemError(bad.value, els[bad.value].value));
      }
      var dicts := ItemDicts(els);
      var params := map["items" := JList(dicts)];
      params := AddPositionParams(params, pos, beforeUid, afterUid);
      assert params.Keys <= {"items"} + PositionKeys;
      var placed := params;
      params := AddUserInfo(params, userArg, groupArg);
      AddUserInfoKeeps(placed, "pos", pos, userArg, groupArg);
      AddUserInfoKeeps(placed, "before_uid", beforeUid, userArg, groupArg);
      AddUserInfoKeeps(placed, "after_uid", afterUid, userArg, groupArg);
      r := Ok(params);
    }

    /** `_prepare_item_update` */
    method PrepareItemUpdate(item: ItemArg, replace: JSON, userArg: JSON, groupArg: JSON)
      returns (r: Result<map<string, JSON>>)
      ensures r.Ok? <==> IsItemLike(item)
      ensures r.Err? ==> r.error == ItemTypeError(item.value)
      ensures r.Ok? ==>
        && r.value.Keys <= {"item", "replace"} + UserKeys
        && "item" in r.value && r.value["item"] == JMap(ItemToDict(item).value)
        && OptionalParam(r.value, "replace", replace)
        && HasUserInfo(r.value, userArg, groupArg)
    {
      if !IsItemLike(item) {
        return Err(ItemTypeError(item.value));
      }
      var dict := ItemToDict(item);
      var params := map["item" := JMap(dict.value)];
      params := AddRequestParam(params, "replace", replace);
      params := AddUserInfo(params, userArg, groupArg);
      r := Ok(params);
    }

    /** `_prepare_item_move`: exactly the arguments that are not `None`. */
    method PrepareItemMove(pos: JSON, uid: JSON, posDest: JSON, beforeUid: JSON, afterUid: JSON)
      returns (params: map<string, JSON>)
      ensures params.Keys <= {"pos", "uid", "pos_dest", "before_uid", "after_uid"}
      ensures OptionalParam(params, "pos", pos) && OptionalParam(params, "uid", uid)
      ensures OptionalParam(params, "pos_dest", posDest)
      ensures OptionalParam(params, "before_uid", beforeUid) && OptionalParam(params, "after_uid", afterUid)
    {
      params := map[];
      params := AddRequestParam(params, "pos", pos);
      params := AddRequestParam(params, "uid", uid);
      params := AddRequestParam(params, "pos_dest", posDest);
      params := AddRequestParam(params, "before_uid", beforeUid);
      params := AddRequestParam(params, "after_uid", afterUid);
    }

    /** `_prepare_item_move_batch`: exactly the arguments that are not `None`. */
    method PrepareItemMoveBatch(uids: JSON, posDest: JSON, beforeUid: JSON, afterUid: JSON, reorder: JSON)
      returns (params: map<string, JSON>)
      ensures params.Keys <= {"uids", "pos_dest", "before_uid", "after_uid", "reorder"}
      ensures OptionalParam(params, "uids", uids) && OptionalParam(params, "pos_dest", posDest)
      ensures OptionalParam(params, "before_uid", beforeUid) && OptionalParam(params, "after_uid", afterUid)
      ensures OptionalParam(params, "reorder", reorder)
    {
      params := map[];
      params := AddRequestParam(params, "uids", uids);
      params := AddRequestParam(params, "pos_dest", posDest);
      params := AddRequestParam(params, "before_uid", beforeUid);
      params := AddRequestParam(params, "after_uid", afterUid);
      params := AddRequestParam(params, "reorder", reorder);
    }

    /** `_prepare_item_get_remove` */
    method PrepareItemGetRemove(pos: JSON, uid: JSON) returns (params: map<string, JSON>)
      ensures params.Keys <= {"pos", "uid"}
      ensures OptionalParam(params, "pos", pos) && OptionalParam(params, "uid", uid)
    {
      params := map[];
      params := AddRequestParam(params, "pos", pos);
      params := AddRequestParam(params, "uid", uid);
    }

    /** `_prepare_item_remove_batch`: `uids` is always sent, even when `None`. */
    method PrepareItemRemoveBatch(uids: JSON, ignoreMissing: JSON) returns (params: map<string, JSON>)
      ensures params.Keys <= {"uids", "ignore_missing"}
      ensures "uids" in params && params["uids"] == uids
      ensures OptionalParam(params, "ignore_missing", ignoreMissing)
    {
      params := map["uids" := uids];
      params := AddRequestParam(params, "ignore_missing", ignoreMissing);
    }

    /** `_prepare_item_execute` */
    method PrepareItemExecute(item: ItemArg, userArg: JSON, groupArg: JSON) returns (r: Result<map<string, JSON>>)
      ensures r.Ok? <==> IsItemLike(item)
      ensures r.Err? ==> r.error == ItemTypeError(item.value)
      ensures r.Ok? ==>
        && r.value.Keys <= {"item"} + UserKeys
        && "item" in r.value && r.value["item"] == JMap(ItemToDict(item).value)
        && HasUserInfo(r.value, userArg, groupArg)
    {
      if !IsItemLike(item) {
        return Err(ItemTypeError(item.value));
      }
      var dict := ItemToDict(item);
      var params := map["item" := JMap(dict.value)];
      params := AddUserInfo(params, userArg, groupArg);
      r := Ok(params);
    }

    /** `_prepare_queue_mode_set(**kwargs)`: an explicit `mode` argument is the mode;
        otherwise all the keyword arguments together are. */
    method PrepareQueueModeSet(kwargs: map<string, JSON>) returns (params: map<string, JSON>)
      ensures params.Keys == {"mode"}
      ensures "mode" in kwargs ==> params["mode"] == kwargs["mode"]
      ensures "mode" !in kwargs ==> params["mode"] == JMap(kwargs)
    {
      if "mode" in kwargs {
        params := map["mode" := kwargs["mode"]];
      } else {
        params := map["mode" := JMap(kwargs)];
      }
    }

    /** `_prepare_plans_devices_allowed`: at most the user group, never the user. */
    method PreparePlansDevicesAllowed(groupArg: JSON) returns (params: map<string, JSON>)
      ensures "user" !in params
      ensures comm.passUserInfo ==> params == map["user_group" := OrDefault(groupArg, userGroup)]
      ensures !comm.passUserInfo ==> params == map[]
    {
      params := map[];
      params := AddUserInfo(params, JNull, groupArg);
      if "user" in params {
        params := params - {"user"};
      }
    }

    /** `_prepare_permissions_reload` */
    method PreparePermissionsReload(restorePlansDevices: JSON, restorePermissions: JSON)
      returns (params: map<string, JSON>)
      ensures params.Keys <= {"restore_plans_devices", "restore_permissions"}
      ensures OptionalParam(params, "restore_plans_devices", restorePlansDevices)
      ensures OptionalParam(params, "restore_permissions", restorePermissions)
    {
      params := map[];
      params := AddRequestParam(params, "restore_plans_devices", restorePlansDevices);
      params := AddRequestParam(params, "restore_permissions", restorePermissions);
    }

    /** `_prepare_permissions_set`: the permissions are always sent. */
    method PreparePermissionsSet(userGroupPermissions: JSON) returns (params: map<string, JSON>)
      ensures params.Keys == {"user_group_permissions"}
      ensures params["user_group_permissions"] == userGroupPermissions
    {
      params := map["user_group_permissions" := userGroupPermissions];
    }

    /** `_prepare_script_upload` */
    method PrepareScriptUpload(script: JSON, updateRe: JSON, runInBackground: JSON)
      returns (params: map<string, JSON>)
      ensures params.Keys <= {"script", "update_re", "run_in_background"}
      ensures "script" in params && params["script"] == script
      ensures OptionalParam(params, "update_re", updateRe)
      ensures OptionalParam(params, "run_in_background", runInBackground)
    {
      params := map["script" := script];
      params := AddRequestParam(params, "update_re", updateRe);
      params := AddRequestParam(params, "run_in_background", runInBackground);
    }

    /** `_prepare_function_execute` */
    method PrepareFunctionExecute(item: ItemArg, runInBackground: JSON, userArg: JSON, groupArg: JSON)
      returns (r: Result<map<string, JSON>>)
      ensures r.Ok? <==> IsItemLike(item)
      ensures r.Err? ==> r.error == ItemTypeError(item.value)
      ensures r.Ok? ==>
        && r.value.Keys <= {"item", "run_in_background"} + UserKeys
        && "item" in r.value && r.value["item"] == JMap(ItemToDict(item).value)
        && OptionalParam(r.value, "run_in_background", runInBackground)
        && HasUserInfo(r.value, userArg, groupArg)
    {
      if !IsItemLike(item) {
        return Err(ItemTypeError(item.value));
      }
      var dict := ItemToDict(item);
      var params := map["item" := JMap(dict.value)];
      params := AddRequestParam(params, "run_in_background", runInBackground);
      params := AddUserInfo(params, userArg, groupArg);
      r := Ok(params);
    }

    /** `_prepare_task_result`: the task uid is always sent. */
    method PrepareTaskResult(taskUid: JSON) returns (params: map<string, JSON>)
      ensures params.Keys == {"task_uid"} && params["task_uid"] == taskUid
    {
      params := map["task_uid" := taskUid];
    }

    /** `_prepare_re_pause` */
    method PrepareRePause(option: JSON) returns (params: map<string, JSON>)
      ensures params.Keys <= {"option"}
      ensures OptionalParam(params, "option", option)
    {
      params := map[];
      params := AddRequestParam(params, "option", option);
    }

    // -------------------------------------------------------------------------
    // Caches

    /** `_process_response_queue_get` */
    method ProcessResponseQueueGet(response: map<string, JSON>) returns (err: Option<Failure>)
      modifies this`queue
      ensures (queue, err) == QueueGetUpdate(old(queue), response)
    {
      if "success" !in response {
        return Some(KeyError("success"));
      }
      err := None;
      if IsTrue(response["success"]) {
        if "items" !in response {
          return Some(KeyError("items"));
        }
        queue := queue.(items := response["items"]);
        if "running_item" !in response {
          return Some(KeyError("running_item"));
        }
        queue := queue.(runningItem := response["running_item"]);
        if "plan_queue_uid" !in response {
          return Some(KeyError("plan_queue_uid"));
        }
        queue := queue.(uid := response["plan_queue_uid"]);
      }
    }

    /** `_generate_response_queue_get` */
    function GenerateResponseQueueGet(): (g: map<string, JSON>)
      reads this
      ensures g == GenerateQueueGet(queue)
    {
      GenerateQueueGet(queue)
    }

    /** Copies `dataKey` then `uidKey` of a successful response into `cache`; the
        shared body of the history, existing-plans/devices and runs updates. */
    static method UpdateData(cache: DataCache, response: map<string, JSON>, dataKey: string, uidKey: string)
      returns (updated: DataCache, err: Option<Failure>)
      ensures (updated, err) == DataUpdate(cache, response, dataKey, uidKey)
    {
      updated := cache;
      if "success" !in response {
        return updated, Some(KeyError("success"));
      }
      err := None;
      if IsTrue(response["success"]) {
        if dataKey !in response {
          return updated, Some(KeyError(dataKey));
        }
        updated := updated.(data := response[dataKey]);
        if uidKey !in response {
          return updated, Some(KeyError(uidKey));
        }
        updated := updated.(uid := response[uidKey]);
      }
    }

    /** `_process_response_history_get` */
    method ProcessResponseHistoryGet(response: map<string, JSON>) returns (err: Option<Failure>)
      modifies this`history
      ensures (history, err) == DataUpdate(old(history), response, "items", "plan_history_uid")
    {
      history, err := UpdateData(history, response, "items", "plan_history_uid");
    }

    /** `_generate_response_history_get` */
    function GenerateResponseHistoryGet(): (g: map<string, JSON>)
      reads this
      ensures g == GenerateData(history, "items", "plan_history_uid")
    {
      GenerateData(history, "items", "plan_history_uid")
    }

    /** `_process_response_plans_existing` */
    method ProcessResponsePlansExisting(response: map<string, JSON>) returns (err: Option<Failure>)
      modifies this`plansExisting
      ensures (plansExisting, err) == DataUpdate(old(plansExisting), response, "plans_existing", "plans_existing_uid")
    {
      plansExisting, err := UpdateData(plansExisting, response, "plans_existing", "plans_existing_uid");
    }

    /** `_generate_response_plans_existing` */
    function GenerateResponsePlansExisting(): (g: map<string, JSON>)
      reads this
      ensures g == GenerateData(plansExisting, "plans_existing", "plans_existing_uid")
    {
      GenerateData(plansExisting, "plans_existing", "plans_existing_uid")
    }

    /** `_process_response_devices_existing` */
    method ProcessResponseDevicesExisting(response: map<string, JSON>) returns (err: Option<Failure>)
      modifies this`devicesExisting
      ensures (devicesExisting, err)
              == DataUpdate(old(devicesExisting), response, "devices_existing", "devices_existing_uid")
    {
      devicesExisting, err := UpdateData(devicesExisting, response, "devices_existing", "devices_existing_uid");
    }

    /** `_generate_response_devices_existing` */
    function GenerateResponseDevicesExisting(): (g: map<string, JSON>)
      reads this
      ensures g == GenerateData(devicesExisting, "devices_existing", "devices_existing_uid")
    {
      GenerateData(devicesExisting, "devices_existing", "devices_existing_uid")
    }

    /** `_invalidate_plans_allowed_cache`: every group's entry goes, the uid stays. */
    method InvalidatePlansAllowedCache()
      modifies this`plansAllowed
      ensures plansAllowed == old(plansAllowed).(byGroup := map[])
    {
      plansAllowed := plansAllowed.(byGroup := map[]);
    }

    /** `_invalidate_devices_allowed_cache`: every group's entry goes, the uid stays. */
    method InvalidateDevicesAllowedCache()
      modifies this`devicesAllowed
      ensures devicesAllowed == old(devicesAllowed).(byGroup := map[])
    {
      devicesAllowed := devicesAllowed.(byGroup := map[]);
    }

    /** `_process_response_plans_allowed` */
    method ProcessResponsePlansAllowed(response: map<string, JSON>, group: string) returns (err: Option<Failure>)
      modifies this`plansAllowed
      ensures (plansAllowed, err)
              == AllowedUpdate(old(plansAllowed), response, "plans_allowed_uid", "plans_allowed", group)
    {
      if "success" !in response {
        return Some(KeyError("success"));
      }
      err := None;
      if IsTrue(response["success"]) {
        if "plans_allowed_uid" !in response {
          return Some(KeyError("plans_allowed_uid"));
        }
        if !PyEq(response["plans_allowed_uid"], plansAllowed.uid) {
          InvalidatePlansAllowedCache();
          plansAllowed := plansAllowed.(uid := response["plans_allowed_uid"]);
        }
        if "plans_allowed" !in response {
          return Some(KeyError("plans_allowed"));
        }
        plansAllowed := plansAllowed.(byGroup := plansAllowed.byGroup[group := response["plans_allowed"]]);
      }
    }

    /** `_generate_response_plans_allowed` */
    function GenerateResponsePlansAllowed(group: string): (r: Result<map<string, JSON>>)
      reads this
      ensures r == GenerateAllowed(plansAllowed, "plans_allowed_uid", "plans_allowed", group)
    {
      GenerateAllowed(plansAllowed, "plans_allowed_uid", "plans_allowed", group)
    }

    /** `_process_response_devices_allowed` */
    method ProcessResponseDevicesAllowed(response: map<string, JSON>, group: string) returns (err: Option<Failure>)
      modifies this`devicesAllowed
      ensures (devicesAllowed, err)
              == AllowedUpdate(old(devicesAllowed), response, "devices_allowed_uid", "devices_allowed", group)
    {
      if "success" !in response {
        return Some(KeyError("success"));
      }
      err := None;
      if IsTrue(response["success"]) {
        if "devices_allowed_uid" !in response {
          return Some(KeyError("devices_allowed_uid"));
        }
        if !PyEq(response["devices_allowed_uid"], devicesAllowed.uid) {
          InvalidateDevicesAllowedCache();
          devicesAllowed := devicesAllowed.(uid := response["devices_allowed_uid"]);
        }
        if "devices_allowed" !in response {
          return Some(KeyError("devices_allowed"));
        }
        devicesAllowed := devicesAllowed.(byGroup := devicesAllowed.byGroup[group := response["devices_allowed"]]);
      }
    }

    /** `_generate_response_devices_allowed` */
    function GenerateResponseDevicesAllowed(group: string): (r: Result<map<string, JSON>>)
      reads this
      ensures r == GenerateAllowed(devicesAllowed, "devices_allowed_uid", "devices_allowed", group)
    {
      GenerateAllowed(devicesAllowed, "devices_allowed_uid", "devices_allowed", group)
    }

    /** `_process_response_re_runs`: the returned response is the one given, with its
        `run_list` replaced by the selected runs on success. */
    method ProcessResponseReRuns(response: map<string, JSON>, option: JSON)
      returns (r: Result<map<string, JSON>>)
      modifies this`runs
      ensures (runs, r) == ReRunsUpdate(old(runs), response, option)
    {
      var err;
      runs, err := UpdateData(runs, response, "run_list", "run_list_uid");
      if err.Some? {
        return Err(err.value);
      }
      if !IsTrue(response["success"]) {
        return Ok(response);
      }
      var selected := SelectReRunsItems(runs.data, option);
      if selected.Err? {
        return Err(selected.error);
      }
      r := Ok(response["run_list" := selected.value]);
    }

    /** `_generate_response_re_runs` */
    function GenerateResponseReRuns(option: JSON): (r: Result<map<string, JSON>>)
      reads this
      ensures r == GenerateReRuns(runs, option)
    {
      GenerateReRuns(runs, option)
    }
  }

  /** As written, the group for allowed plans and devices never becomes the `"http"`
      placeholder: an HTTP client that gives no group gets its default group, where
      the intended code would give `"http"`. */
  lemma {:induction false} AllowedGroupIgnoresProtocol(api: Api, group: JSON)
    requires !api.comm.passUserInfo && api.userGroup != "http"
    requires !Truthy(group)
    ensures api.UserGroupForAllowedPlansDevices(group) == JStr(api.userGroup)
    ensures api.UserGroupForAllowedPlansDevicesIntended(group) == JStr("http")
    ensures api.UserGroupForAllowedPlansDevices(group) != api.UserGroupForAllowedPlansDevicesIntended(group)
  {
  }

  /** With user information passed (0MQ), the written and the intended code agree. */
  lemma AllowedGroupAgreesWhenPassingUserInfo(api: Api, group: JSON)
    requires api.comm.passUserInfo
    ensures api.UserGroupForAllowedPlansDevices(group) == api.UserGroupForAllowedPlansDevicesIntended(group)
  {
  }
}
