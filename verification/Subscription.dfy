/**
 * The legacy state objects built from native observer payloads: device state,
 * permission, push, email and SMS subscription states, and their changes.
 */
module Subscription {
  import opened Json

  /** The legacy JavaScript permission enumeration (`OSNotificationPermission`). */
  const NotDetermined: int := 0
  const Authorized: int := 1
  const Denied: int := 2

  /** The typed `PermissionStatus` codes, which the Android observer also sends: 1 is Denied, 2 Authorized. */
  const StatusDenied: int := 1
  const StatusAuthorized: int := 2

  /** Device-state properties copied from differently named payload properties. */
  const DeviceRenames: map<string, string> := map[
    "pushDisabled" := "isPushDisabled",
    "subscribed" := "isSubscribed",
    "emailSubscribed" := "isEmailSubscribed",
    "smsSubscribed" := "isSMSSubscribed",
    "userId" := "userId",
    "pushToken" := "pushToken",
    "emailUserId" := "emailUserId",
    "emailAddress" := "emailAddress",
    "smsUserId" := "smsUserId",
    "smsNumber" := "smsNumber"]

  /** Each property `p` of `renames` takes the payload's `renames[p]`. */
  function Renamed(json: Value, renames: map<string, string>): (r: map<string, Value>)
    requires !IsNullish(json)
    ensures r.Keys == renames.Keys
    ensures forall p :: p in renames ==> r[p] == Get(json, renames[p])
  {
    map p | p in renames :: Get(json, renames[p])
  }

  /** `new OSDeviceState(json)`: the renamed copies plus the two computed permission properties. */
  function DeviceState(json: Value): map<string, Value>
    requires !IsNullish(json)
  {
    Renamed(json, DeviceRenames) + DevicePermission(json)
  }

  /** The permission flag (the payload's own when truthy) and, unless null, the permission status. */
  function DevicePermission(json: Value): (r: map<string, Value>)
    requires !IsNullish(json)
    ensures r.Keys <= {"hasNotificationPermission", "notificationPermissionStatus"}
  {
    var has := Get(json, "hasNotificationPermission");
    var status := Get(json, "notificationPermissionStatus");
    var flag := map["hasNotificationPermission" := if Truthy(has) then has else Get(json, "areNotificationsEnabled")];
    if status != Null then flag["notificationPermissionStatus" := status] else flag
  }

  /** `json.key !== null ? json.key : fallback`: an absent (undefined) property is not null and is kept. */
  function UnlessNull(json: Value, key: string, fallback: Value): Value
    requires !IsNullish(json)
  {
    if Get(json, key) != Null then Get(json, key) else fallback
  }

  /** The permission state with the given codes for the status fallback. */
  function PermissionStateCoded(json: Value, authorized: int, denied: int): map<string, Value>
    requires !IsNullish(json)
  {
    var granted := Truthy(Get(json, "areNotificationsEnabled"));
    map["status" := UnlessNull(json, "status", Num(if granted then authorized else denied)),
        "provisional" := UnlessNull(json, "provisional", Bool(false)),
        "hasPrompted" := UnlessNull(json, "hasPrompted", Bool(false))]
  }

  /** `new OSPermissionState(json)`, whose status fallback uses the JavaScript enumeration. */
  function PermissionState(json: Value): map<string, Value>
    requires !IsNullish(json)
  {
    PermissionStateCoded(json, Authorized, Denied)
  }

  /**
   * The permission state with the fallback in the typed status codes, which is
   * what the other definitions of the status mean.  It differs from
   * `PermissionState` only where the payload's status is null.
   */
  function CorrectedPermissionState(json: Value): (r: map<string, Value>)
    requires !IsNullish(json)
    ensures r.Keys == PermissionState(json).Keys == {"status", "provisional", "hasPrompted"}
    ensures Get(json, "status") != Null ==> r == PermissionState(json)
    ensures r["provisional"] == PermissionState(json)["provisional"] && r["hasPrompted"] == PermissionState(json)["hasPrompted"]
  {
    PermissionStateCoded(json, StatusAuthorized, StatusDenied)
  }

  datatype StateKind = Permission | Push | Email | Sms

  /** The state constructor of a kind. */
  function State(kind: StateKind, json: Value): map<string, Value>
    requires !IsNullish(json)
  {
    match kind
    case Permission => PermissionState(json)
    case Push => Renamed(json, map["isSubscribed" := "isSubscribed", "userId" := "userId", "pushToken" := "pushToken"])
    case Email => Renamed(json, map["isEmailSubscribed" := "isSubscribed", "emailAddress" := "emailAddress",
                                    "emailUserId" := "emailUserId"])
    case Sms => Renamed(json, map["isSMSSubscribed" := "isSubscribed", "smsNumber" := "smsNumber",
                                  "smsUserId" := "smsUserId"])
  }

  /** `new OS…StateChanges(json)`: `from` and `to` are built only when the payload's are truthy. */
  function StateChanges(kind: StateKind, json: Value): map<string, Value>
    requires !IsNullish(json)
  {
    var from := Get(json, "from");
    var to := Get(json, "to");
    var withFrom: map<string, Value> := if Truthy(from) then map["from" := Obj(State(kind, from))] else map[];
    if Truthy(to) then withFrom["to" := Obj(State(kind, to))] else withFrom
  }

  // ---------------------------------------------------------------------------

  /** The permission flag comes from the payload's own flag when truthy, else from `areNotificationsEnabled`. */
  lemma DevicePermissionFlag(json: Value)
    requires !IsNullish(json)
    ensures var r := DeviceState(json);
            "hasNotificationPermission" in r &&
            (Truthy(Get(json, "hasNotificationPermission")) ==>
               r["hasNotificationPermission"] == Get(json, "hasNotificationPermission")) &&
            (!Truthy(Get(json, "hasNotificationPermission")) ==>
               r["hasNotificationPermission"] == Get(json, "areNotificationsEnabled"))
  {
  }

  /** The permission status is assigned unless it is null; an absent status is assigned as undefined. */
  lemma DevicePermissionStatus(json: Value)
    requires !IsNullish(json)
    ensures "notificationPermissionStatus" in DeviceState(json) <==> Get(json, "notificationPermissionStatus") != Null
    ensures Get(json, "notificationPermissionStatus").Undefined? ==>
              DeviceState(json)["notificationPermissionStatus"] == Undefined
  {
    DeviceKeysFresh();
  }

  /** The device fields are renamed copies: e.g. `pushDisabled` is the payload's `isPushDisabled`. */
  lemma DeviceRenamedFields(json: Value)
    requires !IsNullish(json)
    ensures forall p :: p in DeviceRenames ==> p in DeviceState(json) && DeviceState(json)[p] == Get(json, DeviceRenames[p])
  {
    DeviceKeysFresh();
    var extra := DevicePermission(json);
    forall p | p in DeviceRenames
      ensures p in DeviceState(json) && DeviceState(json)[p] == Renamed(json, DeviceRenames)[p]
    {
      assert p !in extra;
    }
  }

  /**
   * As written, a null status falls back to the JavaScript enumeration, so
   * read as a typed status it says the opposite: enabled notifications give
   * 1 (Denied) and disabled ones 2 (Authorized).
   */
  lemma FallbackReversesTypedStatus(json: Value)
    requires !IsNullish(json) && Get(json, "status") == Null
    ensures Truthy(Get(json, "areNotificationsEnabled")) ==> PermissionState(json)["status"] == Num(StatusDenied)
    ensures !Truthy(Get(json, "areNotificationsEnabled")) ==> PermissionState(json)["status"] == Num(StatusAuthorized)
  {
  }

  /** Corrected, a null status falls back to 2 (Authorized) when enabled and 1 (Denied) otherwise. */
  lemma CorrectedFallbackMatchesTypedStatus(json: Value)
    requires !IsNullish(json) && Get(json, "status") == Null
    ensures Truthy(Get(json, "areNotificationsEnabled")) ==> CorrectedPermissionState(json)["status"] == Num(StatusAuthorized)
    ensures !Truthy(Get(json, "areNotificationsEnabled")) ==> CorrectedPermissionState(json)["status"] == Num(StatusDenied)
  {
  }

  /** The two computed device properties are not among the renamed ones. */
  lemma DeviceKeysFresh()
    ensures "hasNotificationPermission" !in DeviceRenames
    ensures "notificationPermissionStatus" !in DeviceRenames
  {
  }

  /** A null status falls back to Authorized (1) or Denied (2), null provisional and hasPrompted to false; any other value is kept. */
  lemma PermissionDefaults(json: Value)
    requires !IsNullish(json)
    ensures Get(json, "status") == Null ==>
              PermissionState(json)["status"] ==
                Num(if Truthy(Get(json, "areNotificationsEnabled")) then Authorized else Denied)
    ensures Get(json, "status") != Null ==> PermissionState(json)["status"] == Get(json, "status")
    ensures Get(json, "provisional") == Null ==> PermissionState(json)["provisional"] == Bool(false)
    ensures Get(json, "provisional") != Null ==> PermissionState(json)["provisional"] == Get(json, "provisional")
    ensures Get(json, "hasPrompted") == Null ==> PermissionState(json)["hasPrompted"] == Bool(false)
    ensures Get(json, "hasPrompted") != Null ==> PermissionState(json)["hasPrompted"] == Get(json, "hasPrompted")
  {
  }

  /** `from` and `to` are present exactly when the payload's are truthy, each built by the state constructor. */
  lemma ChangesFromTo(kind: StateKind, json: Value)
    requires !IsNullish(json)
    ensures "from" in StateChanges(kind, json) <==> Truthy(Get(json, "from"))
    ensures "to" in StateChanges(kind, json) <==> Truthy(Get(json, "to"))
    ensures Truthy(Get(json, "from")) ==> StateChanges(kind, json)["from"] == Obj(State(kind, Get(json, "from")))
    ensures Truthy(Get(json, "to")) ==> StateChanges(kind, json)["to"] == Obj(State(kind, Get(json, "to")))
    ensures StateChanges(kind, json).Keys <= {"from", "to"}
  {
  }

  /** Email and SMS states rename `isSubscribed`; the push state keeps the name. */
  lemma SubscribedRenames(json: Value)
    requires !IsNullish(json)
    ensures State(Email, json)["isEmailSubscribed"] == Get(json, "isSubscribed")
    ensures State(Sms, json)["isSMSSubscribed"] == Get(json, "isSubscribed")
    ensures State(Push, json)["isSubscribed"] == Get(json, "isSubscribed")
  {
  }

  /** Neither the email nor the SMS state carries an `isSubscribed` property. */
  lemma SubscribedNotCopied(json: Value)
    requires !IsNullish(json)
    ensures "isSubscribed" !in State(Email, json)
    ensures "isSubscribed" !in State(Sms, json)
  {
  }
}
