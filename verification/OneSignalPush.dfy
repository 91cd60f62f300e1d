/**
 * `OneSignalPush.execute` on Android: a switch from action name to handler,
 * the cache of foreground notification events awaiting completion, the four
 * in-app-message lifecycle slots, and the camelCase in-app click payload.
 * Handlers in other controllers are opaque: `outcome(name)` is their result.
 */
module OneSignalPush {
  import opened Json
  import opened Wrappers
  import opened NativeBridge

  datatype Slot = WillDisplay | DidDisplay | WillDismiss | DidDismiss

  /** What a case of the switch runs. */
  datatype Target =
    | SetOpenedHandler
    | SetForegroundHandler
    | SetClickHandler
    | SetLifecycleHandler
    | SetSlot(slot: Slot)
    | CompleteNotification
    | Init
    | Controller(name: string)  // `result = <controller call>`
    | Unassigned(name: string)  // `<controller call>;` without assigning `result`

  predicate Assigns(t: Target) {
    !t.Unassigned?
  }

  const Logout: string := "logout"
  const AddPermissionObserver: string := "addPermissionObserver"

  /** The cases that only forward to a controller: `result = <Controller>.<action>(data, callbackContext)`. */
  const ForwardedActions: set<string> := {
    "getDeviceState",
    "setLanguage",
    "login",
    "addPermissionObserver",
    "addPushSubscriptionObserver",
    "removePushSubscriptionObserver",
    "optInPushSubscription",
    "optOutPushSubscription",
    "getPushSubscriptionId",
    "getPushSubscriptionToken",
    "getPushSubscriptionOptedIn",
    "addAliases",
    "removeAliases",
    "addTags",
    "removeTags",
    "registerForProvisionalAuthorization",
    "promptForPushNotificationsWithUserResponse",
    "unsubscribeWhenNotificationsAreDisabled",
    "clearOneSignalNotifications",
    "removeNotification",
    "removeGroupedNotifications",
    "disablePush",
    "postNotification",
    "setLaunchURLsInApp",
    "addEmail",
    "removeEmail",
    "addSms",
    "removeSms",
    "isLocationShared",
    "getPrivacyConsent",
    "getRequiresPrivacyConsent",
    "setRequiresPrivacyConsent",
    "setPrivacyConsent",
    "addTriggers",
    "removeTriggersForKeys",
    "getTriggerValueForKey",
    "pauseInAppMessages",
    "isInAppMessagingPaused",
    "sendOutcome",
    "sendUniqueOutcome",
    "sendOutcomeWithValue",
    "enterLiveActivity",
    "exitLiveActivity"}

  /**
   * The cases of the switch as written: the targets each action runs, in
   * order (`None` for the default case).  `logout` has no `break`, so it runs
   * on into the `addPermissionObserver` case.
   */
  function CasesAsWritten(action: string): (r: Option<seq<Target>>)
    ensures r.Some? ==> 1 <= |r.value| <= 2
    ensures r.Some? ==> (|r.value| == 2 <==> action == Logout)
  {
    if action == Logout then Some([Controller(Logout), Controller(AddPermissionObserver)])
    else match action
    case "setLogLevel" => Some([Unassigned("setLogLevel")])
    case "promptLocation" => Some([Unassigned("promptLocation")])
    case "setLocationShared" => Some([Unassigned("setLocationShared")])
    case "setNotificationOpenedHandler" => Some([SetOpenedHandler])
    case "setNotificationWillShowInForegroundHandler" => Some([SetForegroundHandler])
    case "setInAppMessageClickHandler" => Some([SetClickHandler])
    case "setInAppMessageLifecycleHandler" => Some([SetLifecycleHandler])
    case "setOnWillDisplayInAppMessageHandler" => Some([SetSlot(WillDisplay)])
    case "setOnDidDisplayInAppMessageHandler" => Some([SetSlot(DidDisplay)])
    case "setOnWillDismissInAppMessageHandler" => Some([SetSlot(WillDismiss)])
    case "setOnDidDismissInAppMessageHandler" => Some([SetSlot(DidDismiss)])
    case "completeNotification" => Some([CompleteNotification])
    case "init" => Some([Init])
    case _ => if action in ForwardedActions then Some([Controller(action)]) else None
  }

  /** The switch with the evidently intended `break` after `logout`; every other case as written. */
  function Cases(action: string): (r: Option<seq<Target>>)
    ensures r.Some? ==> |r.value| == 1
    ensures action != Logout ==> r == CasesAsWritten(action)
  {
    if action == Logout then Some([Controller(Logout)]) else CasesAsWritten(action)
  }

  datatype Completion = Completion(notificationId: string, shown: Option<map<string, Value>>)

  /**
   * `completeNotification(data)`: reads `[notificationId, shouldDisplay]`;
   * `None` when a read fails or the id is not cached (the method then returns
   * false), else the completion: with the cached notification when it should
   * display, with `null` otherwise.
   */
  function CompletionOf(data: seq<Value>, cache: map<string, map<string, Value>>, valueOf: Value -> string): (r: Option<Completion>)
    ensures r.Some? ==> r.value.notificationId in cache
    ensures r.Some? && r.value.shown.Some? ==> r.value.shown.value == cache[r.value.notificationId]
    ensures r.Some? <==> ArrayGetString(data, 0, valueOf).Some? && ArrayGetBoolean(data, 1).Some? &&
                         ArrayGetString(data, 0, valueOf).value in cache
  {
    var id := ArrayGetString(data, 0, valueOf);
    var shouldDisplay := ArrayGetBoolean(data, 1);
    if id.None? || shouldDisplay.None? || id.value !in cache then None
    else Some(Completion(id.value, if shouldDisplay.value then Some(cache[id.value]) else None))
  }

  /** The result a target gives `result` (read only when it assigns). */
  function StepResult(t: Target, data: seq<Value>, cache: map<string, map<string, Value>>,
                      outcome: string -> bool, valueOf: Value -> string): bool {
    match t
    case CompleteNotification => CompletionOf(data, cache, valueOf).Some?
    case Init => |data| > 0
    case Controller(name) => outcome(name)
    case Unassigned(_) => false
    case _ => true
  }

  /** What `execute` returns after running `targets` from `result = false`. */
  function Returned(targets: seq<Target>, data: seq<Value>, cache: map<string, map<string, Value>>,
                    outcome: string -> bool, valueOf: Value -> string): bool
  {
    if targets == [] then false
    else
      var last := targets[|targets| - 1];
      if Assigns(last) then StepResult(last, data, cache, outcome, valueOf)
      else Returned(targets[..|targets| - 1], data, cache, outcome, valueOf)
  }

  /** The completion a target makes: only `completeNotification` on a cached id makes one. */
  function StepCompletions(t: Target, data: seq<Value>, cache: map<string, map<string, Value>>, valueOf: Value -> string): seq<Completion> {
    if t == CompleteNotification && CompletionOf(data, cache, valueOf).Some? then [CompletionOf(data, cache, valueOf).value] else []
  }

  /** The completions `targets` make, in order. */
  function Completed(targets: seq<Target>, data: seq<Value>, cache: map<string, map<string, Value>>, valueOf: Value -> string): seq<Completion> {
    if targets == [] then [] else StepCompletions(targets[0], data, cache, valueOf) + Completed(targets[1..], data, cache, valueOf)
  }

  /** What a target reports to the context itself: only `init` with data answers `true`. */
  function StepLog(t: Target, data: seq<Value>, context: Context): seq<PluginResult> {
    if t == Init && |data| > 0 then [PluginResult(context, Ok, Bool(true), true)] else []
  }

  /** What `targets` report to the context, in order. */
  function Logged(targets: seq<Target>, data: seq<Value>, context: Context): seq<PluginResult> {
    if targets == [] then [] else StepLog(targets[0], data, context) + Logged(targets[1..], data, context)
  }

  /** One or two cases, unfolded: what each of them contributes, in order. */
  lemma CasesInOrder(ts: seq<Target>, data: seq<Value>, cache: map<string, map<string, Value>>, context: Context,
                     outcome: string -> bool, valueOf: Value -> string)
    requires 1 <= |ts| <= 2
    ensures |ts| == 1 ==> Returned(ts, data, cache, outcome, valueOf) == StepResult(ts[0], data, cache, outcome, valueOf)
    ensures |ts| == 2 ==>
              Returned(ts, data, cache, outcome, valueOf) ==
              if Assigns(ts[1]) then StepResult(ts[1], data, cache, outcome, valueOf) else StepResult(ts[0], data, cache, outcome, valueOf)
    ensures Completed(ts, data, cache, valueOf) ==
              StepCompletions(ts[0], data, cache, valueOf) + (if |ts| == 2 then StepCompletions(ts[1], data, cache, valueOf) else [])
    ensures Logged(ts, data, context) == StepLog(ts[0], data, context) + (if |ts| == 2 then StepLog(ts[1], data, context) else [])
  {
    if |ts| == 2 {
      var rest := ts[1..];
      assert ts[..1] == [ts[0]] && rest == [ts[1]] && rest[1..] == [];
      assert [ts[0]][..0] == [];
      assert Completed(rest, data, cache, valueOf) == StepCompletions(ts[1], data, cache, valueOf) + [];
      assert Logged(rest, data, context) == StepLog(ts[1], data, context) + [];
    } else {
      assert ts[1..] == [] && ts[..0] == [];
    }
  }

  /** `put(key, value)` on an object, where a Java `null` removes the key. */
  function PutOpt(a: map<string, Value>, key: string, v: Option<Value>): map<string, Value> {
    if v.Some? then a[key := v.value] else a - {key}
  }

  /** `optString(key, null)`: the value as text, or `null` when missing. */
  function OptString(result: map<string, Value>, key: string, valueOf: Value -> string): Option<Value> {
    if key in result then Some(Str(JavaString(result[key], valueOf))) else None
  }

  /** `optJSONArray(key)`. */
  function OptArray(result: map<string, Value>, key: string): Option<Value> {
    if key in result && result[key].Arr? then Some(result[key]) else None
  }

  /** `optJSONObject(key)`. */
  function OptObject(result: map<string, Value>, key: string): Option<Value> {
    if key in result && result[key].Obj? then Some(result[key]) else None
  }

  /** `firstClick` and `closesMessage`, each only when its snake_case key is present; `None` when one is not boolean. */
  function ClickFlags(result: map<string, Value>): Option<map<string, Value>> {
    var first := if "first_click" in result then JavaBoolean(result["first_click"]) else None;
    var closes := if "closes_message" in result then JavaBoolean(result["closes_message"]) else None;
    if ("first_click" in result && first.None?) || ("closes_message" in result && closes.None?) then None
    else
      var a0: map<string, Value> := if first.Some? then map["firstClick" := Bool(first.value)] else map[];
      Some(if closes.Some? then a0["closesMessage" := Bool(closes.value)] else a0)
  }

  /**
   * The in-app click payload: the flags, then `clickName`, `clickUrl`,
   * `outcomes` and `tags` from their optional reads, where a missing value is
   * a Java `null` and leaves the key out.  `None` when a flag throws.
   */
  function ClickAction(result: map<string, Value>, valueOf: Value -> string): (r: Option<map<string, Value>>)
    ensures r.Some? <==> ClickFlags(result).Some?
    ensures r.Some? ==> r.value.Keys <= {"firstClick", "closesMessage", "clickName", "clickUrl", "outcomes", "tags"}
  {
    if ClickFlags(result).None? then None
    else
      Some(PutOpt(PutOpt(PutOpt(PutOpt(ClickFlags(result).value,
             "clickName", OptString(result, "click_name", valueOf)),
             "clickUrl", OptString(result, "click_url", valueOf)),
             "outcomes", OptArray(result, "outcomes")),
             "tags", OptObject(result, "tags")))
  }

  class OneSignalPush {
    const log: CallbackLog
    /** `notificationReceivedEventCache`: notification id to the notification of the cached event. */
    var cache: map<string, map<string, Value>>
    /** Every `complete(...)` made on a cached event. */
    var completions: seq<Completion>
    var willDisplaySlot: Option<Context>
    var didDisplaySlot: Option<Context>
    var willDismissSlot: Option<Context>
    var didDismissSlot: Option<Context>
    /** Every target `execute` has run, in order. */
    var dispatched: seq<Target>

    constructor (log: CallbackLog)
      ensures this.log == log && cache == map[] && completions == [] && dispatched == []
      ensures willDisplaySlot == None && didDisplaySlot == None && willDismissSlot == None && didDismissSlot == None
    {
      this.log := log;
      cache := map[];
      completions := [];
      willDisplaySlot := None;
      didDisplaySlot := None;
      willDismissSlot := None;
      didDismissSlot := None;
      dispatched := [];
    }

    function SlotValue(slot: Slot): Option<Context>
      reads this
    {
      match slot
      case WillDisplay => willDisplaySlot
      case DidDisplay => didDisplaySlot
      case WillDismiss => willDismissSlot
      case DidDismiss => didDismissSlot
    }

    /**
     * `execute(action, data, callbackContext)`: runs the action's cases as the
     * switch is written, so that `logout` runs on into `addPermissionObserver`;
     * an unknown action reports "Invalid action : <action>" to the context and
     * returns false.
     */
    method Execute(action: string, data: seq<Value>, context: Context, outcome: string -> bool, valueOf: Value -> string)
      returns (result: bool)
      modifies this, log
      ensures CasesAsWritten(action).None? ==>
                !result && dispatched == old(dispatched) && completions == old(completions) &&
                log.results == old(log.results) + [PluginResult(context, Error, Str("Invalid action : " + action), true)] &&
                forall s :: SlotValue(s) == old(SlotValue(s))
      ensures CasesAsWritten(action).Some? ==>
                var ts := CasesAsWritten(action).value;
                result == Returned(ts, data, old(cache), outcome, valueOf) &&
                dispatched == old(dispatched) + ts &&
                completions == old(completions) + Completed(ts, data, old(cache), valueOf) &&
                log.results == old(log.results) + Logged(ts, data, context) &&
                forall s :: SlotValue(s) == if SetSlot(s) in ts then Some(context) else old(SlotValue(s))
      ensures cache == old(cache)
    {
      var cases := CasesAsWritten(action);
      if cases.None? {
        log.CallbackError(context, "Invalid action : " + action);
        return false;
      }
      result := RunCases(cases.value, data, context, outcome, valueOf);
    }

    /**
     * The cases from the one the action matches up to the first `break`: each
     * runs in turn, and `result` keeps what the last assigning one gave it.
     */
    method RunCases(ts: seq<Target>, data: seq<Value>, context: Context, outcome: string -> bool, valueOf: Value -> string)
      returns (result: bool)
      requires 1 <= |ts| <= 2
      modifies this, log
      ensures result == Returned(ts, data, old(cache), outcome, valueOf)
      ensures dispatched == old(dispatched) + ts
      ensures completions == old(completions) + Completed(ts, data, old(cache), valueOf)
      ensures log.results == old(log.results) + Logged(ts, data, context)
      ensures forall s :: SlotValue(s) == if SetSlot(s) in ts then Some(context) else old(SlotValue(s))
      ensures cache == old(cache)
    {
      CasesInOrder(ts, data, cache, context, outcome, valueOf);
      result := Run(ts[0], data, context, outcome, valueOf);
      if |ts| == 2 {
        label First:
        var next := Run(ts[1], data, context, outcome, valueOf);
        if Assigns(ts[1]) {
          result := next;
        }
        assert ts == [ts[0], ts[1]];
        assert dispatched == old(dispatched) + [ts[0]] + [ts[1]];
        assert completions == old(completions) + StepCompletions(ts[0], data, old(cache), valueOf) +
                              StepCompletions(ts[1], data, old(cache), valueOf);
        assert log.results == old(log.results) + StepLog(ts[0], data, context) + StepLog(ts[1], data, context);
        forall s
          ensures SlotValue(s) == if SetSlot(s) in ts then Some(context) else old(SlotValue(s))
        {
          assert SlotValue(s) == if ts[1] == SetSlot(s) then Some(context) else old@First(SlotValue(s));
        }
      } else {
        assert ts == [ts[0]];
      }
    }

    /** One case of the switch: runs `t`'s handler and gives what it assigns to `result`. */
    method Run(t: Target, data: seq<Value>, context: Context, outcome: string -> bool, valueOf: Value -> string)
      returns (r: bool)
      modifies this, log
      ensures r == StepResult(t, data, old(cache), outcome, valueOf)
      ensures dispatched == old(dispatched) + [t]
      ensures completions == old(completions) + StepCompletions(t, data, old(cache), valueOf)
      ensures log.results == old(log.results) + StepLog(t, data, context)
      ensures forall s :: SlotValue(s) == if t == SetSlot(s) then Some(context) else old(SlotValue(s))
      ensures cache == old(cache)
    {
      dispatched := dispatched + [t];
      match t {
        case SetSlot(slot) =>
          SetSlotHandler(slot, context);
          r := true;
        case CompleteNotification =>
          r := Complete(data, valueOf);
        case Init =>
          if |data| > 0 {
            log.CallbackSuccessBoolean(context, true);
            r := true;
          } else {
            r := false;
          }
        case Controller(name) =>
          r := outcome(name);
        case Unassigned(_) =>
          r := false;
        case _ =>
          r := true;
      }
    }

    /** `setOn…InAppMessageHandler(callbackContext)`: the slot takes the newest context. */
    method SetSlotHandler(slot: Slot, context: Context)
      modifies this
      ensures forall s :: SlotValue(s) == if s == slot then Some(context) else old(SlotValue(s))
      ensures cache == old(cache) && completions == old(completions) && dispatched == old(dispatched)
    {
      match slot {
        case WillDisplay => willDisplaySlot := Some(context);
        case DidDisplay => didDisplaySlot := Some(context);
        case WillDismiss => willDismissSlot := Some(context);
        case DidDismiss => didDismissSlot := Some(context);
      }
    }

    /** `completeNotification(data)`. */
    method Complete(data: seq<Value>, valueOf: Value -> string) returns (ok: bool)
      modifies this
      ensures ok == CompletionOf(data, old(cache), valueOf).Some?
      ensures completions == old(completions) + (if ok then [CompletionOf(data, old(cache), valueOf).value] else [])
      ensures cache == old(cache) && dispatched == old(dispatched)
      ensures willDisplaySlot == old(willDisplaySlot) && didDisplaySlot == old(didDisplaySlot)
      ensures willDismissSlot == old(willDismissSlot) && didDismissSlot == old(didDismissSlot)
    {
      var id := ArrayGetString(data, 0, valueOf);
      if id.None? {
        return false;
      }
      var shouldDisplay := ArrayGetBoolean(data, 1);
      if shouldDisplay.None? {
        return false;
      }
      if id.value !in cache {
        return false;
      }
      var event := cache[id.value];
      if shouldDisplay.value {
        completions := completions + [Completion(id.value, Some(event))];
      } else {
        completions := completions + [Completion(id.value, None)];
      }
      return true;
    }

    /**
     * The foreground handler: caches the event under its notification id
     * (nothing is ever evicted), then sends the notification to JavaScript.
     */
    method OnNotificationWillShowInForeground(context: Context, notificationId: string, notification: map<string, Value>)
      modifies this, log
      ensures cache == old(cache)[notificationId := notification]
      ensures old(cache).Keys <= cache.Keys
      ensures log.results == old(log.results) + [PluginResult(context, Ok, Obj(notification), true)]
      ensures completions == old(completions) && dispatched == old(dispatched)
      ensures forall s :: SlotValue(s) == old(SlotValue(s))
    {
      cache := cache[notificationId := notification];
      log.CallbackSuccess(context, Some(notification));
    }

    /** A lifecycle event reaches its slot's context only when that slot is set. */
    method OnLifecycleEvent(slot: Slot, message: map<string, Value>)
      modifies log
      ensures SlotValue(slot).Some? ==>
                log.results == old(log.results) + [PluginResult(SlotValue(slot).value, Ok, Obj(message), true)]
      ensures SlotValue(slot).None? ==> log.results == old(log.results)
    {
      var target := SlotValue(slot);
      if target.Some? {
        log.CallbackSuccess(target.value, Some(message));
      }
    }

    /** `inAppMessageClicked(result)`: builds the camelCase payload; a JSON exception sends nothing. */
    method InAppMessageClicked(context: Context, result: map<string, Value>, valueOf: Value -> string)
      modifies log
      ensures ClickAction(result, valueOf).Some? ==>
                log.results == old(log.results) + [PluginResult(context, Ok, Obj(ClickAction(result, valueOf).value), true)]
      ensures ClickAction(result, valueOf).None? ==> log.results == old(log.results)
    {
      var action := new JSONObject(map[]);
      if "first_click" in result {
        var b := JavaBoolean(result["first_click"]);
        if b.None? {
          return;
        }
        action.Put("firstClick", Bool(b.value));
      }
      if "closes_message" in result {
        var b := JavaBoolean(result["closes_message"]);
        if b.None? {
          return;
        }
        action.Put("closesMessage", Bool(b.value));
      }
      assert action.fields == ClickFlags(result).value;
      action.PutOrRemove("clickName", OptString(result, "click_name", valueOf));
      action.PutOrRemove("clickUrl", OptString(result, "click_url", valueOf));
      action.PutOrRemove("outcomes", OptArray(result, "outcomes"));
      action.PutOrRemove("tags", OptObject(result, "tags"));
      log.CallbackSuccess(context, Some(action.fields));
    }
  }

  // ---------------------------------------------------------------------------

  /**
   * As written, `logout` runs on into `addPermissionObserver` and returns that
   * handler's result: with a logout that fails and an observer registration
   * that succeeds, `execute("logout")` reports success.
   */
  lemma LogoutFallsThrough(data: seq<Value>, cache: map<string, map<string, Value>>, outcome: string -> bool, valueOf: Value -> string)
    ensures CasesAsWritten(Logout) == Some([Controller(Logout), Controller(AddPermissionObserver)])
    ensures Returned(CasesAsWritten(Logout).value, data, cache, outcome, valueOf) == outcome(AddPermissionObserver)
    ensures !outcome(Logout) && outcome(AddPermissionObserver) ==>
              Returned(CasesAsWritten(Logout).value, data, cache, outcome, valueOf)
  {
  }

  /** With the `break`, `logout` runs alone and returns its own result. */
  lemma LogoutRunsAlone(data: seq<Value>, cache: map<string, map<string, Value>>, outcome: string -> bool, valueOf: Value -> string)
    ensures Cases(Logout) == Some([Controller(Logout)])
    ensures Returned(Cases(Logout).value, data, cache, outcome, valueOf) == outcome(Logout)
  {
  }

  /** `setLogLevel`, `promptLocation` and `setLocationShared` never assign `result`, so `execute` returns false. */
  lemma UnassignedCasesReturnFalse(action: string, data: seq<Value>, cache: map<string, map<string, Value>>,
                                   outcome: string -> bool, valueOf: Value -> string)
    requires action == "setLogLevel" || action == "promptLocation" || action == "setLocationShared"
    ensures CasesAsWritten(action) == Some([Unassigned(action)])
    ensures !Returned(CasesAsWritten(action).value, data, cache, outcome, valueOf)
  {
  }

  /**
   * Completion: an uncached id completes nothing; a cached one completes with
   * the cached notification when it should display and with `null` otherwise.
   */
  lemma CompletionSpec(id: string, shouldDisplay: bool, cache: map<string, map<string, Value>>, valueOf: Value -> string)
    ensures id !in cache ==> CompletionOf([Str(id), Bool(shouldDisplay)], cache, valueOf) == None
    ensures id in cache ==>
              CompletionOf([Str(id), Bool(shouldDisplay)], cache, valueOf) ==
                Some(Completion(id, if shouldDisplay then Some(cache[id]) else None))
    ensures CompletionOf([Str(id)], cache, valueOf) == None
    ensures CompletionOf([], cache, valueOf) == None
  {
  }

  /** A notification cached by the foreground handler can be completed for display by its id. */
  lemma ForegroundThenComplete(id: string, n: map<string, Value>, cache: map<string, map<string, Value>>, valueOf: Value -> string)
    ensures CompletionOf([Str(id), Str("TRUE")], cache[id := n], valueOf) == Some(Completion(id, Some(n)))
  {
    assert EqualsIgnoreCase("TRUE", "true") by {
      assert LowerAscii('T') == 't' && LowerAscii('R') == 'r' && LowerAscii('U') == 'u' && LowerAscii('E') == 'e';
    }
  }

  /**
   * The click payload's flags: each camelCase flag is present exactly when its
   * snake_case key is, with the boolean read from it.
   */
  lemma ClickActionSpec(result: map<string, Value>, valueOf: Value -> string)
    requires ClickAction(result, valueOf).Some?
    ensures var a := ClickAction(result, valueOf).value;
            ("firstClick" in a <==> "first_click" in result) &&
            ("closesMessage" in a <==> "closes_message" in result) &&
            ("first_click" in result ==> Some(a["firstClick"].b) == JavaBoolean(result["first_click"])) &&
            ("closes_message" in result ==> Some(a["closesMessage"].b) == JavaBoolean(result["closes_message"]))
  {
    var f := ClickFlags(result).value;
    FlagKept(f, result, valueOf, "firstClick");
    FlagKept(f, result, valueOf, "closesMessage");
  }

  /** Helper for `ClickActionSpec`: the four later `put`s leave a flag entry as `ClickFlags` set it. */
  lemma FlagKept(f: map<string, Value>, result: map<string, Value>, valueOf: Value -> string, k: string)
    requires ClickFlags(result) == Some(f)
    requires k == "firstClick" || k == "closesMessage"
    ensures ClickAction(result, valueOf).Some?
    ensures k in ClickAction(result, valueOf).value <==> k in f
    ensures k in f ==> ClickAction(result, valueOf).value[k] == f[k]
  {
  }

  /**
   * The rest of the click payload: the name and URL are present exactly when
   * the input has them, and nothing outside the six camelCase keys is set, so no
   * snake_case key survives.
   */
  lemma ClickActionFields(result: map<string, Value>, valueOf: Value -> string)
    requires ClickAction(result, valueOf).Some?
    ensures var a := ClickAction(result, valueOf).value;
            ("clickName" in a <==> "click_name" in result) &&
            ("clickUrl" in a <==> "click_url" in result) &&
            ("click_name" in result && result["click_name"].Str? ==> a["clickName"] == result["click_name"]) &&
            a.Keys <= {"firstClick", "closesMessage", "clickName", "clickUrl", "outcomes", "tags"}
  {
  }

  /** A non-boolean `first_click` makes the handler send nothing. */
  lemma BadFlagSendsNothing(result: map<string, Value>, valueOf: Value -> string)
    requires "first_click" in result && result["first_click"] == Num(1)
    ensures ClickAction(result, valueOf).None?
  {
  }
}
