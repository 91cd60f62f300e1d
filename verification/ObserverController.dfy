/**
 * `OneSignalObserverController` on Android: one callback slot and one native
 * observer per kind (permission, push subscription, email, SMS).  Each add
 * call points the slot at the newest context; the observer itself is created
 * and registered with the SDK once, and always reports to the current slot.
 */
module ObserverController {
  import opened Json
  import opened Wrappers
  import opened Helpers
  import opened NativeBridge
  import opened Subscription

  /** The status code the permission payload carries: 2 when notifications are enabled, else 1. */
  function NativePermissionStatus(enabled: bool): (r: int)
    ensures enabled ==> r == StatusAuthorized
    ensures !enabled ==> r == StatusDenied
  {
    if enabled then 2 else 1
  }

  /** `o.put(newKey, b); o.remove(oldKey)`. */
  function MoveKey(m: map<string, Value>, oldKey: string, newKey: string, b: bool): map<string, Value> {
    m[newKey := Bool(b)] - {oldKey}
  }

  /** `o.put("status", enabled ? 2 : 1); o.remove("areNotificationsEnabled")`. */
  function WithStatus(m: map<string, Value>, enabled: bool): map<string, Value> {
    m["status" := Num(NativePermissionStatus(enabled))] - {"areNotificationsEnabled"}
  }

  /** The object `renameStateChangesKey` returns: `{from, to}` when both keys read as booleans, else `{}`. */
  function RenamedPayload(from: map<string, Value>, to: map<string, Value>, oldKey: string, newKey: string): map<string, Value> {
    var fb := GetBoolean(from, oldKey);
    var tb := GetBoolean(to, oldKey);
    if fb.Some? && tb.Some? then
      map["from" := Obj(MoveKey(from, oldKey, newKey, fb.value)), "to" := Obj(MoveKey(to, oldKey, newKey, tb.value))]
    else map[]
  }

  /** The object the permission observer sends: both sides with a status, or `{}`. */
  function PermissionPayload(from: map<string, Value>, to: map<string, Value>): map<string, Value> {
    var fb := GetBoolean(from, "areNotificationsEnabled");
    var tb := GetBoolean(to, "areNotificationsEnabled");
    if fb.Some? && tb.Some? then
      map["from" := Obj(WithStatus(from, fb.value)), "to" := Obj(WithStatus(to, tb.value))]
    else map[]
  }

  /**
   * `renameStateChangesKey(fromJSON, toJSON, oldKey, newKey)`: renames the
   * boolean in place on each side in turn.  A missing or non-boolean key stops
   * it with the sides changed so far, and the result is then `{}`.
   */
  method RenameStateChangesKey(from: JSONObject, to: JSONObject, oldKey: string, newKey: string)
    returns (modified: map<string, Value>)
    requires from != to
    modifies from, to
    ensures modified == RenamedPayload(old(from.fields), old(to.fields), oldKey, newKey)
    ensures var fb := GetBoolean(old(from.fields), oldKey);
            from.fields == if fb.Some? then MoveKey(old(from.fields), oldKey, newKey, fb.value) else old(from.fields)
    ensures var fb := GetBoolean(old(from.fields), oldKey);
            var tb := GetBoolean(old(to.fields), oldKey);
            to.fields == if fb.Some? && tb.Some? then MoveKey(old(to.fields), oldKey, newKey, tb.value) else old(to.fields)
  {
    modified := map[];
    var fb := GetBoolean(from.fields, oldKey);
    if fb.None? {
      return;
    }
    from.Put(newKey, Bool(fb.value));
    from.Remove(oldKey);
    var tb := GetBoolean(to.fields, oldKey);
    if tb.None? {
      return;
    }
    to.Put(newKey, Bool(tb.value));
    to.Remove(oldKey);
    modified := map["from" := Obj(from.fields), "to" := Obj(to.fields)];
  }

  class ObserverController {
    const log: CallbackLog
    var permissionCallback: Option<Context>
    var subscriptionCallback: Option<Context>
    var emailCallback: Option<Context>
    var smsCallback: Option<Context>
    /** The observers handed to the SDK, in order. */
    var registrations: seq<StateKind>

    function Slot(kind: StateKind): Option<Context>
      reads this
    {
      match kind
      case Permission => permissionCallback
      case Push => subscriptionCallback
      case Email => emailCallback
      case Sms => smsCallback
    }

    /** Each kind's observer is registered at most once, and exactly when its slot has been set. */
    ghost predicate Valid()
      reads this
    {
      Distinct(registrations) && forall kind :: kind in registrations <==> Slot(kind).Some?
    }

    constructor (log: CallbackLog)
      ensures Valid() && this.log == log
      ensures registrations == [] && forall kind :: Slot(kind) == None
    {
      this.log := log;
      permissionCallback := None;
      subscriptionCallback := None;
      emailCallback := None;
      smsCallback := None;
      registrations := [];
    }

    /**
     * `add…Observer(callbackContext)`: the slot takes the newest context; the
     * native observer is created and registered only the first time.
     */
    method AddObserver(kind: StateKind, context: Context) returns (r: bool)
      requires Valid()
      modifies this
      ensures Valid()
      ensures r
      ensures Slot(kind) == Some(context)
      ensures forall other :: other != kind ==> Slot(other) == old(Slot(other))
      ensures registrations == if kind in old(registrations) then old(registrations) else old(registrations) + [kind]
    {
      match kind {
        case Permission => permissionCallback := Some(context);
        case Push => subscriptionCallback := Some(context);
        case Email => emailCallback := Some(context);
        case Sms => smsCallback := Some(context);
      }
      if kind !in registrations {
        registrations := registrations + [kind];
      }
      return true;
    }

    /**
     * The permission observer: both sides get a status code in place of
     * `areNotificationsEnabled`; a side without a readable flag stops the
     * conversion and `{}` is sent.  The result goes to the current slot.
     */
    method OnPermissionChanged(from: JSONObject, to: JSONObject)
      requires Valid() && Permission in registrations && from != to
      modifies from, to, log
      ensures log.results == old(log.results) +
                [PluginResult(permissionCallback.value, Ok, Obj(PermissionPayload(old(from.fields), old(to.fields))), true)]
      ensures var fb := GetBoolean(old(from.fields), "areNotificationsEnabled");
              from.fields == if fb.Some? then WithStatus(old(from.fields), fb.value) else old(from.fields)
      ensures var fb := GetBoolean(old(from.fields), "areNotificationsEnabled");
              var tb := GetBoolean(old(to.fields), "areNotificationsEnabled");
              to.fields == if fb.Some? && tb.Some? then WithStatus(old(to.fields), tb.value) else old(to.fields)
    {
      assert Slot(Permission).Some?;
      var modified: map<string, Value> := map[];
      var fb := GetBoolean(from.fields, "areNotificationsEnabled");
      if fb.Some? {
        from.Put("status", Num(NativePermissionStatus(fb.value)));
        from.Remove("areNotificationsEnabled");
        var tb := GetBoolean(to.fields, "areNotificationsEnabled");
        if tb.Some? {
          to.Put("status", Num(NativePermissionStatus(tb.value)));
          to.Remove("areNotificationsEnabled");
          modified := map["from" := Obj(from.fields), "to" := Obj(to.fields)];
        }
      }
      log.CallbackSuccess(permissionCallback.value, Some(modified));
    }

    /** The push-subscription observer forwards the SDK's state-changes object unchanged. */
    method OnSubscriptionChanged(stateChanges: Option<map<string, Value>>)
      requires Valid() && Push in registrations
      modifies log
      ensures log.results == old(log.results) +
                [PluginResult(subscriptionCallback.value, Ok, Obj(stateChanges.GetOr(map[])), true)]
    {
      assert Slot(Push).Some?;
      log.CallbackSuccess(subscriptionCallback.value, stateChanges);
    }

    /** The email observer renames `isSubscribed` to `isEmailSubscribed` on both sides. */
    method OnEmailChanged(from: JSONObject, to: JSONObject)
      requires Valid() && Email in registrations && from != to
      modifies from, to, log
      ensures log.results == old(log.results) +
                [PluginResult(emailCallback.value, Ok,
                              Obj(RenamedPayload(old(from.fields), old(to.fields), "isSubscribed", "isEmailSubscribed")), true)]
      ensures var fb := GetBoolean(old(from.fields), "isSubscribed");
              from.fields == if fb.Some? then MoveKey(old(from.fields), "isSubscribed", "isEmailSubscribed", fb.value) else old(from.fields)
      ensures var fb := GetBoolean(old(from.fields), "isSubscribed");
              var tb := GetBoolean(old(to.fields), "isSubscribed");
              to.fields == if fb.Some? && tb.Some? then MoveKey(old(to.fields), "isSubscribed", "isEmailSubscribed", tb.value) else old(to.fields)
    {
      assert Slot(Email).Some?;
      var modified := RenameStateChangesKey(from, to, "isSubscribed", "isEmailSubscribed");
      log.CallbackSuccess(emailCallback.value, Some(modified));
    }

    /** The SMS observer renames `isSubscribed` to `isSMSSubscribed` on both sides. */
    method OnSmsChanged(from: JSONObject, to: JSONObject)
      requires Valid() && Sms in registrations && from != to
      modifies from, to, log
      ensures log.results == old(log.results) +
                [PluginResult(smsCallback.value, Ok,
                              Obj(RenamedPayload(old(from.fields), old(to.fields), "isSubscribed", "isSMSSubscribed")), true)]
      ensures var fb := GetBoolean(old(from.fields), "isSubscribed");
              from.fields == if fb.Some? then MoveKey(old(from.fields), "isSubscribed", "isSMSSubscribed", fb.value) else old(from.fields)
      ensures var fb := GetBoolean(old(from.fields), "isSubscribed");
              var tb := GetBoolean(old(to.fields), "isSubscribed");
              to.fields == if fb.Some? && tb.Some? then MoveKey(old(to.fields), "isSubscribed", "isSMSSubscribed", tb.value) else old(to.fields)
    {
      assert Slot(Sms).Some?;
      var modified := RenameStateChangesKey(from, to, "isSubscribed", "isSMSSubscribed");
      log.CallbackSuccess(smsCallback.value, Some(modified));
    }
  }

  // ---------------------------------------------------------------------------

  /**
   * When both sides carry a readable boolean under `oldKey`, the payload has
   * `from` and `to`, each with that boolean under `newKey`, without `oldKey`
   * and with every other key as before; otherwise the payload is empty.
   */
  lemma RenamedPayloadSpec(from: map<string, Value>, to: map<string, Value>, oldKey: string, newKey: string, k: string)
    requires oldKey != newKey
    ensures var p := RenamedPayload(from, to, oldKey, newKey);
            var fb := GetBoolean(from, oldKey);
            var tb := GetBoolean(to, oldKey);
            (p != map[] <==> fb.Some? && tb.Some?) &&
            (p != map[] ==>
               p.Keys == {"from", "to"} &&
               p["from"].Obj? && p["to"].Obj? &&
               p["from"].props[newKey] == Bool(fb.value) && p["to"].props[newKey] == Bool(tb.value) &&
               oldKey !in p["from"].props && oldKey !in p["to"].props &&
               (k != oldKey && k != newKey ==>
                  (k in p["from"].props <==> k in from) && (k in from ==> p["from"].props[k] == from[k]) &&
                  (k in p["to"].props <==> k in to) && (k in to ==> p["to"].props[k] == to[k])))
  {
    var p := RenamedPayload(from, to, oldKey, newKey);
    if GetBoolean(from, oldKey).Some? && GetBoolean(to, oldKey).Some? {
      assert "from" in p;
    }
  }

  /**
   * The permission payload: `status` is 2 for enabled and 1 for disabled, and
   * `areNotificationsEnabled` is gone; a side without the flag empties the payload.
   */
  lemma PermissionPayloadSpec(from: map<string, Value>, to: map<string, Value>)
    ensures var p := PermissionPayload(from, to);
            var fb := GetBoolean(from, "areNotificationsEnabled");
            var tb := GetBoolean(to, "areNotificationsEnabled");
            (p != map[] <==> fb.Some? && tb.Some?) &&
            (p != map[] ==>
               p["from"].props["status"] == Num(if fb.value then 2 else 1) &&
               p["to"].props["status"] == Num(if tb.value then 2 else 1) &&
               "areNotificationsEnabled" !in p["from"].props && "areNotificationsEnabled" !in p["to"].props)
  {
    var p := PermissionPayload(from, to);
    if GetBoolean(from, "areNotificationsEnabled").Some? && GetBoolean(to, "areNotificationsEnabled").Some? {
      assert "from" in p;
    }
  }

  /**
   * The native status codes are the reverse of the JavaScript enumeration's:
   * enabled notifications are reported as 2, which that enumeration names
   * Denied; they agree with the typed status codes instead.
   */
  lemma NativeStatusAgainstJsEnum()
    ensures NativePermissionStatus(true) == Denied
    ensures NativePermissionStatus(false) == Authorized
    ensures NativePermissionStatus(true) == StatusAuthorized
    ensures NativePermissionStatus(false) == StatusDenied
  {
  }

  /**
   * As written, the JavaScript fallback for a null status never gives the code
   * the Android observer sends for the same flag.
   */
  lemma FallbackDisagreesWithNative(json: Value)
    requires !IsNullish(json) && Get(json, "status") == Null
    ensures PermissionState(json)["status"] != Num(NativePermissionStatus(Truthy(Get(json, "areNotificationsEnabled"))))
  {
  }

  /** Corrected, the fallback gives exactly the code the Android observer sends. */
  lemma CorrectedFallbackAgreesWithNative(json: Value)
    requires !IsNullish(json) && Get(json, "status") == Null
    ensures CorrectedPermissionState(json)["status"] == Num(NativePermissionStatus(Truthy(Get(json, "areNotificationsEnabled"))))
  {
  }
}
