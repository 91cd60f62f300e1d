/**
 * The legacy plugin object (`window.plugins.OneSignal`), in its two editions:
 * `OneSignalPlugin.js` and the earlier `OneSignal.js`.  Overloaded arguments
 * are resolved into one `exec` call or a console error; four static observer
 * lists are grown with `push` and walked in order when a state change arrives.
 */
module LegacyPlugin {
  import opened Json
  import opened Wrappers
  import opened Bridge
  import opened Helpers
  import opened Subscription

  /** `www/OneSignalPlugin.js`, or the earlier `www/OneSignal.js` (no SMS, one-argument `setLogLevel`). */
  datatype Edition = PluginJs | OneSignalJs

  function ObjectName(edition: Edition): string {
    match edition
    case PluginJs => "OneSignalPlugin"
    case OneSignalJs => "OneSignal"
  }

  /** `if (cb == null) cb = function() {}`. */
  function OrNoop(cb: Value): (r: Callback)
    ensures IsNullish(cb) ==> r == Noop
    ensures !IsNullish(cb) ==> r == UserFunction(cb)
  {
    if IsNullish(cb) then Noop else UserFunction(cb)
  }

  // ---------------------------------------------------------------------------
  // setEmail / setSMSNumber

  datatype Channel = EmailChannel | SmsChannel

  function UnauthenticatedAction(channel: Channel): string {
    match channel
    case EmailChannel => "setUnauthenticatedEmail"
    case SmsChannel => "setUnauthenticatedSMSNumber"
  }

  function AuthenticatedAction(channel: Channel): string {
    match channel
    case EmailChannel => "setEmail"
    case SmsChannel => "setSMSNumber"
  }

  /**
   * `setEmail(email, token, onSuccess, onFailure)` (and `setSMSNumber`): null
   * callbacks become no-ops; a function in token place shifts the callbacks one
   * place right; a function, null or undefined token sends the unauthenticated
   * action with `[address]`, any other token the authenticated one with both.
   */
  function SetChannelCall(channel: Channel, address: Value, token: Value, onSuccess: Value, onFailure: Value): ExecCall {
    if TypeOf(token) == "function" then
      ExecCall(UserFunction(token), OrNoop(onSuccess), Service, UnauthenticatedAction(channel), Some([address]))
    else if IsNullish(token) then
      ExecCall(OrNoop(onSuccess), OrNoop(onFailure), Service, UnauthenticatedAction(channel), Some([address]))
    else
      ExecCall(OrNoop(onSuccess), OrNoop(onFailure), Service, AuthenticatedAction(channel), Some([address, token]))
  }

  // ---------------------------------------------------------------------------
  // setExternalUserId

  function ExternalIdUsage(edition: Edition): string {
    UsageHead + ObjectName(edition) + ExternalIdUsageTail
  }

  const UsageHead: string := "Invalid param types passed to "
  const ExternalIdUsageTail: string :=
    ".setExternalUserId(). Definition is setExternalUserId(externalId: string?, externalIdAuthHash: string?, callback?: function): void"

  /**
   * `setExternalUserId(externalId, varArg1, varArg2)`: the call it sends, or the
   * console error it writes instead.  A string in second place is the auth hash
   * and the third argument the callback, whatever it is.
   */
  function SetExternalUserIdCall(edition: Edition, externalId: Value, varArg1: Value, varArg2: Value): Result<ExecCall, string> {
    var id := if IsNullish(externalId) then Null else externalId;
    // `typeof varArg1` is "function", "string", "undefined" or anything else
    if varArg1.Fun? then Success(ExecCall(UserFunction(varArg1), Noop, Service, "setExternalUserId", Some([id])))
    else if varArg1.Str? then Success(ExecCall(UserFunction(varArg2), Noop, Service, "setExternalUserId", Some([id, varArg1])))
    else if varArg1.Undefined? then Success(ExecCall(Noop, Noop, Service, "setExternalUserId", Some([id])))
    else Failure(ExternalIdUsage(edition))
  }

  /** The two editions' usage messages differ (only in the object name). */
  lemma UsageTextsDiffer()
    ensures ExternalIdUsage(PluginJs) != ExternalIdUsage(OneSignalJs)
  {
    assert |ObjectName(PluginJs)| == |ObjectName(OneSignalJs)| + 6;
  }

  // ---------------------------------------------------------------------------
  // Outcomes

  datatype OutcomeKind = Plain | Unique | WithValue

  function OutcomeAction(kind: OutcomeKind): string {
    match kind
    case Plain => "sendOutcome"
    case Unique => "sendUniqueOutcome"
    case WithValue => "sendOutcomeWithValue"
  }

  /**
   * `sendOutcome(name, callback)`, `sendUniqueOutcome(name, callback)` and
   * `sendOutcomeWithValue(name, value, callback)`: an undefined callback
   * becomes a no-op (a wrapped `undefined` here), any other non-function is
   * refused on the console.  `toNumber` stands for `Number(value)`.
   */
  function OutcomeCall(kind: OutcomeKind, name: Value, value: Value, callback: Value, toNumber: Value -> Value): Result<ExecCall, string> {
    if !callback.Undefined? && TypeOf(callback) != "function" then
      Failure("OneSignal: " + OutcomeAction(kind) + ": must provide a valid callback")
    else
      var args := if kind == WithValue then [name, toNumber(value)] else [name];
      Success(ExecCall(Wrapped(OutcomeAction(kind) + "Callback", callback), Noop, Service, OutcomeAction(kind), Some(args)))
  }

  /** The prompt's internal callback: `data.accepted === "true"`. */
  function PromptAccepted(data: Value): bool
    requires !IsNullish(data)
  {
    Get(data, "accepted") == Str("true")
  }

  /** The native action that registers an observer of each kind. */
  function ObserverAction(kind: StateKind): string {
    match kind
    case Permission => "addPermissionObserver"
    case Push => "addSubscriptionObserver"
    case Email => "addEmailSubscriptionObserver"
    case Sms => "addSMSSubscriptionObserver"
  }

  /** An edition has the observer list of a kind (`OneSignal.js` has no SMS list). */
  predicate HasObserverList(edition: Edition, kind: StateKind) {
    edition == PluginJs || kind != Sms
  }

  class LegacyPlugin {
    const edition: Edition
    const bridge: Cordova
    var permissionObservers: seq<Value>
    var subscriptionObservers: seq<Value>
    var emailObservers: seq<Value>
    var smsObservers: seq<Value>
    /** Every call made to an observer so far, with the state-changes record it received. */
    var delivered: seq<Delivery<Value, map<string, Value>>>

    constructor (edition: Edition, bridge: Cordova)
      ensures this.edition == edition && this.bridge == bridge
      ensures permissionObservers == [] && subscriptionObservers == [] && emailObservers == [] && smsObservers == []
      ensures delivered == []
    {
      this.edition := edition;
      this.bridge := bridge;
      permissionObservers := [];
      subscriptionObservers := [];
      emailObservers := [];
      smsObservers := [];
      delivered := [];
    }

    function Observers(kind: StateKind): seq<Value>
      reads this
    {
      match kind
      case Permission => permissionObservers
      case Push => subscriptionObservers
      case Email => emailObservers
      case Sms => smsObservers
    }

    /**
     * `add…Observer(callback)`: pushes onto that kind's list and registers a
     * native callback that will process the whole list.
     */
    method AddObserver(kind: StateKind, callback: Value)
      requires HasObserverList(edition, kind)
      modifies this, bridge
      ensures Observers(kind) == old(Observers(kind)) + [callback]
      ensures forall other :: other != kind ==> Observers(other) == old(Observers(other))
      ensures delivered == old(delivered)
      ensures bridge.calls == old(bridge.calls) + [ExecCall(Internal("callbackProcessor"), Noop, Service, ObserverAction(kind), Some([]))]
      ensures bridge.errors == old(bridge.errors)
    {
      match kind {
        case Permission => permissionObservers := permissionObservers + [callback];
        case Push => subscriptionObservers := subscriptionObservers + [callback];
        case Email => emailObservers := emailObservers + [callback];
        case Sms => smsObservers := smsObservers + [callback];
      }
      bridge.Exec(ExecCall(Internal("callbackProcessor"), Noop, Service, ObserverAction(kind), Some([])));
    }

    /**
     * A native state change for `kind`: one state-changes record is built and
     * every observer of that kind receives it, in registration order.
     */
    method OnStateChange(kind: StateKind, state: Value)
      requires !IsNullish(state)
      modifies this
      ensures delivered == old(delivered) + Broadcast(Observers(kind), StateChanges(kind, state))
      ensures permissionObservers == old(permissionObservers) && subscriptionObservers == old(subscriptionObservers)
      ensures emailObservers == old(emailObservers) && smsObservers == old(smsObservers)
    {
      var calls := ProcessFunctionList(Observers(kind), StateChanges(kind, state));
      delivered := delivered + calls;
    }

    /** `setEmail(email, emailAuthToken, onSuccess, onFailure)`. */
    method SetEmail(email: Value, token: Value, onSuccess: Value, onFailure: Value)
      modifies bridge
      ensures bridge.calls == old(bridge.calls) + [SetChannelCall(EmailChannel, email, token, onSuccess, onFailure)]
      ensures bridge.errors == old(bridge.errors)
    {
      bridge.Exec(SetChannelCall(EmailChannel, email, token, onSuccess, onFailure));
    }

    /** `setSMSNumber(smsNumber, smsAuthToken, onSuccess, onFailure)`, present only in `OneSignalPlugin.js`. */
    method SetSmsNumber(smsNumber: Value, token: Value, onSuccess: Value, onFailure: Value)
      requires edition == PluginJs
      modifies bridge
      ensures bridge.calls == old(bridge.calls) + [SetChannelCall(SmsChannel, smsNumber, token, onSuccess, onFailure)]
      ensures bridge.errors == old(bridge.errors)
    {
      bridge.Exec(SetChannelCall(SmsChannel, smsNumber, token, onSuccess, onFailure));
    }

    /** `setExternalUserId(externalId, varArg1, varArg2)`: one call, or one console error and no call. */
    method SetExternalUserId(externalId: Value, varArg1: Value, varArg2: Value)
      modifies bridge
      ensures var r := SetExternalUserIdCall(edition, externalId, varArg1, varArg2);
              (r.Success? ==> bridge.calls == old(bridge.calls) + [r.value] && bridge.errors == old(bridge.errors)) &&
              (r.Failure? ==> bridge.calls == old(bridge.calls) && bridge.errors == old(bridge.errors) + [r.error])
    {
      var r := SetExternalUserIdCall(edition, externalId, varArg1, varArg2);
      match r {
        case Success(call) => bridge.Exec(call);
        case Failure(message) => bridge.ConsoleError(message);
      }
    }

    /** `sendOutcome`, `sendUniqueOutcome`, `sendOutcomeWithValue`. */
    method SendOutcome(kind: OutcomeKind, name: Value, value: Value, callback: Value, toNumber: Value -> Value)
      modifies bridge
      ensures var r := OutcomeCall(kind, name, value, callback, toNumber);
              (r.Success? ==> bridge.calls == old(bridge.calls) + [r.value] && bridge.errors == old(bridge.errors)) &&
              (r.Failure? ==> bridge.calls == old(bridge.calls) && bridge.errors == old(bridge.errors) + [r.error])
    {
      var r := OutcomeCall(kind, name, value, callback, toNumber);
      match r {
        case Success(call) => bridge.Exec(call);
        case Failure(message) => bridge.ConsoleError(message);
      }
    }

    /** `promptForPushNotificationsWithUserResponse(callback)`: the callback is wrapped by the accepted test. */
    method PromptForPushNotificationsWithUserResponse(callback: Value)
      modifies bridge
      ensures bridge.calls == old(bridge.calls) +
                [ExecCall(Wrapped("promptAccepted", callback), Noop, Service, "promptForPushNotificationsWithUserResponse", Some([]))]
      ensures bridge.errors == old(bridge.errors)
    {
      bridge.Exec(ExecCall(Wrapped("promptAccepted", callback), Noop, Service, "promptForPushNotificationsWithUserResponse", Some([])));
    }

    /** `postNotification(jsonData, onSuccess, onFailure)`: null callbacks become no-ops. */
    method PostNotification(jsonData: Value, onSuccess: Value, onFailure: Value)
      modifies bridge
      ensures bridge.calls == old(bridge.calls) +
                [ExecCall(OrNoop(onSuccess), OrNoop(onFailure), Service, "postNotification", Some([jsonData]))]
      ensures bridge.errors == old(bridge.errors)
    {
      bridge.Exec(ExecCall(OrNoop(onSuccess), OrNoop(onFailure), Service, "postNotification", Some([jsonData])));
    }

    /**
     * `setLogLevel`: `OneSignalPlugin.js` sends `[nsLogLevel, visualLogLevel]`,
     * `OneSignal.js` takes one argument and sends `[logLevel]`.
     */
    method SetLogLevel(logLevel: Value, visualLogLevel: Value)
      modifies bridge
      ensures bridge.calls == old(bridge.calls) +
                [Send("setLogLevel", if edition == PluginJs then [logLevel, visualLogLevel] else [logLevel])]
      ensures bridge.errors == old(bridge.errors)
    {
      if edition == PluginJs {
        bridge.Exec(Send("setLogLevel", [logLevel, visualLogLevel]));
      } else {
        bridge.Exec(Send("setLogLevel", [logLevel]));
      }
    }

    /** `addTriggers(triggers)`: stringifies non-string values in the caller's object, then sends `[triggers]`. */
    method AddTriggers(triggers: JsObject, text: Value -> string)
      modifies triggers, bridge
      ensures triggers.props == StringValued(old(triggers.props), text)
      ensures bridge.calls == old(bridge.calls) + [Send("addTriggers", [Obj(triggers.props)])]
      ensures bridge.errors == old(bridge.errors)
    {
      triggers.StringifyNonStrings(text);
      bridge.Exec(Send("addTriggers", [Obj(triggers.props)]));
    }

    /** `addTrigger(key, value)`: `addTriggers({key: value})` on a fresh object. */
    method AddTrigger(key: string, value: Value, text: Value -> string)
      modifies bridge
      ensures bridge.calls == old(bridge.calls) + [Send("addTriggers", [Obj(StringValued(map[key := value], text))])]
      ensures bridge.errors == old(bridge.errors)
    {
      var obj := new JsObject(map[key := value]);
      AddTriggers(obj, text);
    }

    /** `removeTriggersForKeys(keys)`: a non-array is reported, and the call is sent either way as `[keys]`. */
    method RemoveTriggersForKeys(keys: Value)
      modifies bridge
      ensures bridge.calls == old(bridge.calls) + [Send("removeTriggersForKeys", [keys])]
      ensures bridge.errors == old(bridge.errors) +
                (if keys.Arr? then [] else ["OneSignal: removeTriggersForKeys: argument must be of type Array"])
    {
      if !keys.Arr? {
        bridge.ConsoleError("OneSignal: removeTriggersForKeys: argument must be of type Array");
      }
      bridge.Exec(Send("removeTriggersForKeys", [keys]));
    }

    /** `removeTriggerForKey(key)`: exactly `removeTriggersForKeys([key])`. */
    method RemoveTriggerForKey(key: Value)
      modifies bridge
      ensures bridge.calls == old(bridge.calls) + [Send("removeTriggersForKeys", [Arr([key])])]
      ensures bridge.errors == old(bridge.errors)
    {
      RemoveTriggersForKeys(Arr([key]));
    }
  }

  // ---------------------------------------------------------------------------

  /**
   * The routing of `setEmail`/`setSMSNumber`: the unauthenticated action (with
   * the address alone) exactly when the token is a function, null or undefined;
   * a function token becomes the success callback and the success callback the
   * failure one.
   */
  lemma SetChannelRouting(channel: Channel, address: Value, token: Value, onSuccess: Value, onFailure: Value)
    ensures var r := SetChannelCall(channel, address, token, onSuccess, onFailure);
            (r.action == UnauthenticatedAction(channel) <==> token.Fun? || IsNullish(token)) &&
            (r.action == AuthenticatedAction(channel) <==> !token.Fun? && !IsNullish(token)) &&
            (r.args == if r.action == UnauthenticatedAction(channel) then Some([address]) else Some([address, token])) &&
            (token.Fun? ==> r.success == UserFunction(token) && r.failure == OrNoop(onSuccess)) &&
            (!token.Fun? ==> r.success == OrNoop(onSuccess) && r.failure == OrNoop(onFailure)) &&
            r.service == Service
  {
    assert UnauthenticatedAction(channel) != AuthenticatedAction(channel) by {
      match channel
      case EmailChannel => assert UnauthenticatedAction(channel)[3] != AuthenticatedAction(channel)[3];
      case SmsChannel => assert UnauthenticatedAction(channel)[3] != AuthenticatedAction(channel)[3];
    }
  }

  /**
   * `setExternalUserId`: it refuses exactly the second arguments that are not
   * a function, a string or undefined; an undefined id is sent as null; the
   * hash is sent as a second element exactly when given as a string.
   */
  lemma ExternalUserIdRules(edition: Edition, externalId: Value, varArg1: Value, varArg2: Value)
    ensures var r := SetExternalUserIdCall(edition, externalId, varArg1, varArg2);
            (r.Failure? <==> !varArg1.Fun? && !varArg1.Str? && !varArg1.Undefined?) &&
            (r.Success? ==> r.value.action == "setExternalUserId" && r.value.failure == Noop &&
                            r.value.args.Some? && 1 <= |r.value.args.value| <= 2 &&
                            r.value.args.value[0] == (if IsNullish(externalId) then Null else externalId) &&
                            (|r.value.args.value| == 2 <==> varArg1.Str?) &&
                            (varArg1.Str? ==> r.value.args.value[1] == varArg1 && r.value.success == UserFunction(varArg2)) &&
                            (varArg1.Fun? ==> r.value.success == UserFunction(varArg1)) &&
                            (varArg1.Undefined? ==> r.value.success == Noop))
  {
  }

  /** Both editions resolve `setExternalUserId` alike; only the object name in the error differs. */
  lemma EditionsAgreeOnExternalUserId(externalId: Value, varArg1: Value, varArg2: Value)
    ensures var a := SetExternalUserIdCall(PluginJs, externalId, varArg1, varArg2);
            var b := SetExternalUserIdCall(OneSignalJs, externalId, varArg1, varArg2);
            a.Success? == b.Success? && (a.Success? ==> a.value == b.value) && (a.Failure? ==> a.error != b.error)
  {
    var a := SetExternalUserIdCall(PluginJs, externalId, varArg1, varArg2);
    var b := SetExternalUserIdCall(OneSignalJs, externalId, varArg1, varArg2);
    UsageTextsDiffer();
  }

  /**
   * The outcome calls: refused (nothing sent) exactly for a callback that is
   * neither undefined nor a function; otherwise `[name]`, plus the number for
   * `sendOutcomeWithValue`.
   */
  lemma OutcomeRules(kind: OutcomeKind, name: Value, value: Value, callback: Value, toNumber: Value -> Value)
    ensures var r := OutcomeCall(kind, name, value, callback, toNumber);
            (r.Failure? <==> !callback.Undefined? && !callback.Fun?) &&
            (r.Success? ==> r.value.action == OutcomeAction(kind) && r.value.args.Some? &&
                            r.value.args.value[0] == name &&
                            (kind == WithValue ==> r.value.args.value == [name, toNumber(value)]) &&
                            (kind != WithValue ==> r.value.args.value == [name]))
  {
  }

  /** The prompt reports acceptance only for the string "true": a boolean `true` reads as refused. */
  lemma PromptAcceptedOnlyForTrueText(data: Value)
    requires !IsNullish(data)
    ensures PromptAccepted(data) <==> Get(data, "accepted") == Str("true")
    ensures Get(data, "accepted") == Bool(true) ==> !PromptAccepted(data)
  {
  }
}
