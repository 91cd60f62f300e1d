/**
 * `OSNotification`: the record the plugin builds from a native notification
 * payload, copying fields unconditionally, when defined, or when truthy.
 */
module OSNotification {
  import opened Json
  import opened Bridge

  /** Copied whatever their value (undefined included). */
  const AlwaysCopied: set<string> := {"notificationId", "body", "title", "additionalData", "launchURL", "sound"}

  /** Copied only when truthy: the shared and Android fields, then the iOS fields. */
  const CopiedWhenTruthy: set<string> := AndroidWhenTruthy + IosWhenTruthy

  const AndroidWhenTruthy: set<string> := {
    "actionButtons", "groupKey", "ledColor", "smallIcon", "largeIcon", "bigPicture", "collapseId",
    "groupMessage", "fromProjectNumber", "smallIconAccentColor", "lockScreenVisibility",
    "androidNotificationId"}

  const IosWhenTruthy: set<string> := {
    "badge", "category", "threadId", "subtitle", "templateId", "attachments", "templateName",
    "mutableContent", "badgeIncrement", "contentAvailable", "relevanceScore", "interruptionLevel"}

  /** `rawPayload`: parsed when it is JSON text, kept as it is otherwise. */
  function RawPayload(raw: Value, parse: string -> Value): (r: Value)
    ensures raw.Str? ==> r == parse(raw.s)
    ensures !raw.Str? ==> r == raw
  {
    if TypeOf(raw) == "string" then parse(raw.s) else raw
  }

  /** `receivedEvent.groupedNotifications && receivedEvent.groupedNotifications.length`. */
  predicate NonEmptyGroup(g: Value) {
    Truthy(g) && Truthy(Get(g, "length"))
  }

  /** The properties the constructor assigns for a payload. */
  function Assigned(e: map<string, Value>): set<string> {
    AlwaysCopied + {"rawPayload"} +
    (set k | k in CopiedWhenTruthy && Truthy(Prop(e, k))) +
    (if !Prop(e, "priority").Undefined? then {"priority"} else {}) +
    (if NonEmptyGroup(Prop(e, "groupedNotifications")) then {"groupedNotifications"} else {})
  }

  /** `new OSNotification(receivedEvent)`, as the record of its own properties. */
  function Build(e: map<string, Value>, parse: string -> Value): map<string, Value> {
    map k | k in Assigned(e) :: if k == "rawPayload" then RawPayload(Prop(e, k), parse) else Prop(e, k)
  }

  /** `display()`: sends `displayNotification` with `[notificationId]`. */
  method Display(notification: map<string, Value>, bridge: Cordova)
    modifies bridge
    ensures bridge.calls == old(bridge.calls) + [Send("displayNotification", [Prop(notification, "notificationId")])]
    ensures bridge.errors == old(bridge.errors)
  {
    bridge.Exec(Send("displayNotification", [Prop(notification, "notificationId")]));
  }

  // ---------------------------------------------------------------------------

  /** The six unconditional fields are always present and equal to the input's. */
  lemma AlwaysCopiedFields(e: map<string, Value>, parse: string -> Value, k: string)
    requires k in AlwaysCopied
    ensures k in Build(e, parse) && Build(e, parse)[k] == Prop(e, k)
  {
  }

  /** A string `rawPayload` is parsed; any other value (an object, undefined) is kept. */
  lemma RawPayloadField(e: map<string, Value>, parse: string -> Value)
    ensures "rawPayload" in Build(e, parse)
    ensures Prop(e, "rawPayload").Str? ==> Build(e, parse)["rawPayload"] == parse(Prop(e, "rawPayload").s)
    ensures !Prop(e, "rawPayload").Str? ==> Build(e, parse)["rawPayload"] == Prop(e, "rawPayload")
  {
  }

  /** `priority` is copied whenever defined, so a priority of 0 survives. */
  lemma PriorityWhenDefined(e: map<string, Value>, parse: string -> Value)
    ensures "priority" in Build(e, parse) <==> !Prop(e, "priority").Undefined?
    ensures "priority" in Build(e, parse) ==> Build(e, parse)["priority"] == Prop(e, "priority")
  {
    GroupsDisjoint();
  }

  /** The field groups do not overlap. */
  lemma GroupsDisjoint()
    ensures AlwaysCopied !! CopiedWhenTruthy
    ensures "rawPayload" !in AlwaysCopied + CopiedWhenTruthy
    ensures "priority" !in AlwaysCopied + CopiedWhenTruthy
    ensures "groupedNotifications" !in AlwaysCopied + CopiedWhenTruthy
  {
    AndroidDisjoint();
    IosDisjoint();
    SpecialsOutside();
  }

  /** The three separately handled fields belong to no group. */
  lemma SpecialsOutside()
    ensures "rawPayload" !in AlwaysCopied + CopiedWhenTruthy
    ensures "priority" !in AlwaysCopied + CopiedWhenTruthy
    ensures "groupedNotifications" !in AlwaysCopied + CopiedWhenTruthy
  {
    AndroidDisjoint();
    IosDisjoint();
  }

  lemma AndroidDisjoint()
    ensures AlwaysCopied !! AndroidWhenTruthy
    ensures "rawPayload" !in AndroidWhenTruthy && "priority" !in AndroidWhenTruthy
    ensures "groupedNotifications" !in AndroidWhenTruthy
  {
  }

  lemma IosDisjoint()
    ensures AlwaysCopied !! IosWhenTruthy
    ensures "rawPayload" !in IosWhenTruthy && "priority" !in IosWhenTruthy
    ensures "groupedNotifications" !in IosWhenTruthy
  {
  }

  /** The other optional fields need a truthy value: a `relevanceScore` of 0 or an empty string is dropped. */
  lemma TruthyFieldsOnly(e: map<string, Value>, parse: string -> Value, k: string)
    requires k in CopiedWhenTruthy
    ensures k in Build(e, parse) <==> Truthy(Prop(e, k))
    ensures k in Build(e, parse) ==> Build(e, parse)[k] == Prop(e, k)
  {
    GroupsDisjoint();
  }

  lemma ZeroRelevanceScoreDropped(e: map<string, Value>, parse: string -> Value)
    requires Prop(e, "relevanceScore") == Num(0)
    ensures "relevanceScore" !in Build(e, parse)
  {
    TruthyFieldsOnly(e, parse, "relevanceScore");
  }

  /** `groupedNotifications` is copied only when non-empty: an empty array is dropped. */
  lemma GroupedNotificationsWhenNonEmpty(e: map<string, Value>, parse: string -> Value)
    ensures Prop(e, "groupedNotifications").Arr? ==>
              ("groupedNotifications" in Build(e, parse) <==> |Prop(e, "groupedNotifications").items| > 0)
    ensures IsNullish(Prop(e, "groupedNotifications")) ==> "groupedNotifications" !in Build(e, parse)
  {
    GroupedKey(e, parse);
    var g := Prop(e, "groupedNotifications");
    if g.Arr? {
      assert Get(g, "length") == Num(|g.items|);
    }
  }

  /** `groupedNotifications` is assigned exactly under the constructor's own test. */
  lemma GroupedKey(e: map<string, Value>, parse: string -> Value)
    ensures "groupedNotifications" in Build(e, parse) <==> NonEmptyGroup(Prop(e, "groupedNotifications"))
  {
    GroupsDisjoint();
  }

  /** Nothing outside the known fields is copied. */
  lemma OnlyKnownFields(e: map<string, Value>, parse: string -> Value)
    ensures Build(e, parse).Keys <= AlwaysCopied + CopiedWhenTruthy + {"rawPayload", "priority", "groupedNotifications"}
  {
  }
}
